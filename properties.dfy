/**
 * Properties of whole runs of the training loop, proved by induction over
 * the batches, and two example runs: a warm-up followed by an
 * improvement, and patience running out.
 */
module Properties {
  import opened Labels
  import opened Schedule
  import opened Boundary

  /** The best dev score never gets worse over a run. */
  lemma {:induction false} BestNeverIncreases(cfg: Config, s: TrainingState, batches: seq<Batch>)
    ensures Run(cfg, s, batches).state.best <= s.best
    decreases |batches|
  {
    if batches != [] {
      var t := Step(cfg, s, batches[0]);
      if t.status == Running {
        BestNeverIncreases(cfg, t.state, batches[1..]);
      }
    }
  }

  /** Each batch moves the epoch forward by at most one, and never back. */
  lemma {:induction false} EpochBounds(cfg: Config, s: TrainingState, batches: seq<Batch>)
    ensures s.epoch <= Run(cfg, s, batches).state.epoch <= s.epoch + |batches|
    decreases |batches|
  {
    if batches != [] {
      var t := Step(cfg, s, batches[0]);
      if t.status == Running {
        EpochBounds(cfg, t.state, batches[1..]);
      }
    }
  }

  /**
   * The step counter only grows when a non-negative number of GPUs is
   * configured, and it never moves at all with the default of zero GPUs.
   */
  lemma {:induction false} StepMonotone(cfg: Config, s: TrainingState, batches: seq<Batch>)
    requires cfg.ngpus >= 0
    ensures Run(cfg, s, batches).state.step >= s.step
    ensures cfg.ngpus == 0 ==> Run(cfg, s, batches).state.step == s.step
    decreases |batches|
  {
    if batches != [] {
      var t := Step(cfg, s, batches[0]);
      if t.status == Running {
        StepMonotone(cfg, t.state, batches[1..]);
      }
    }
  }

  /**
   * The completion marker is written exactly when the loop was left by
   * early stop or by finishing the last epoch, and then it is the last
   * action and written once.
   */
  lemma {:induction false} CompleteIffStopped(cfg: Config, s: TrainingState, batches: seq<Batch>)
    ensures var r := Run(cfg, s, batches);
      Complete in r.effects <==> r.status == EarlyStopped || r.status == Finished
    ensures var r := Run(cfg, s, batches);
      Complete in r.effects ==>
        r.effects[|r.effects| - 1] == Complete && Complete !in r.effects[..|r.effects| - 1]
    decreases |batches|
  {
    if batches != [] {
      var t := Step(cfg, s, batches[0]);
      if t.status == Running {
        CompleteIffStopped(cfg, t.state, batches[1..]);
        var rest := Run(cfg, t.state, batches[1..]);
        var fx := t.effects + rest.effects;
        if Complete in rest.effects {
          assert fx[..|fx| - 1] == t.effects + rest.effects[..|rest.effects| - 1];
        }
      } else if !t.status.Failed? {
        assert (t.effects + [Complete])[..|t.effects|] == t.effects;
      }
    }
  }

  // ---------------------------------------------------------------------
  // The counter of epochs without improvement, replayed from the log

  /** The counter after one logged action. */
  function Tally(n: int, e: Effect): (m: int) {
    if e.DevEvaluated? then (if e.improved then 0 else n + 1) else n
  }

  /**
   * The counter after the actions `fx`, starting from `n`: the number of
   * evaluations that did not improve since the last one that did.
   */
  function Replay(n: int, fx: seq<Effect>): (m: int)
    decreases |fx|
  {
    if fx == [] then n else Replay(Tally(n, fx[0]), fx[1..])
  }

  lemma {:induction false} ReplayAppend(n: int, a: seq<Effect>, b: seq<Effect>)
    ensures Replay(n, a + b) == Replay(Replay(n, a), b)
    decreases |a|
  {
    if a == [] {
      assert a + b == b;
    } else {
      assert (a + b)[0] == a[0] && (a + b)[1..] == a[1..] + b;
      ReplayAppend(Tally(n, a[0]), a[1..], b);
      assert Replay(n, a + b) == Replay(Tally(n, a[0]), a[1..] + b);
    }
  }

  /** Actions other than dev evaluations leave the counter alone. */
  lemma {:induction false} ReplayQuiet(n: int, fx: seq<Effect>)
    requires forall i :: 0 <= i < |fx| ==> !fx[i].DevEvaluated?
    ensures Replay(n, fx) == n
    decreases |fx|
  {
    if fx != [] {
      ReplayQuiet(n, fx[1..]);
    }
  }

  /** The bookkeeping of one scored epoch is its own replay. */
  lemma ScoreReplays(s: TrainingState, m: real)
    ensures var t := Score(s, m); t.state.notImproved == Replay(s.notImproved, t.effects)
  {
    var t := Score(s, m);
    var rest := t.effects[1..];
    assert t.effects == [t.effects[0]] + rest;
    ReplayAppend(s.notImproved, [t.effects[0]], rest);
    ReplayQuiet(Tally(s.notImproved, t.effects[0]), rest);
  }

  lemma EpochEndReplays(cfg: Config, s: TrainingState, measured: real)
    ensures var t := EpochEnd(cfg, s, measured); t.state.notImproved == Replay(s.notImproved, t.effects)
  {
    var e := EpochEnd(cfg, s, measured);
    var summary := [EpochSummary(s.epoch)];
    if Evaluates(cfg, s, measured) {
      var m := DevMetric(cfg.labelType, measured).value;
      var scored := Score(s, m);
      var next := Reschedule(cfg, scored.state, m);
      assert e.effects == summary + scored.effects + next.effects;
      ReplayAppend(s.notImproved, summary + scored.effects, next.effects);
      ReplayAppend(s.notImproved, summary, scored.effects);
      ReplayQuiet(s.notImproved, summary);
      ScoreReplays(s, m);
      ReplayQuiet(scored.state.notImproved, next.effects);
    } else {
      if s.epoch < cfg.evalStartEpoch {
        WarmUpBoundary(cfg, s, measured);
      } else {
        UnmeasuredBoundary(cfg, s, measured);
      }
      ReplayQuiet(s.notImproved, e.effects);
    }
  }

  lemma StepReplays(cfg: Config, s: TrainingState, b: Batch)
    ensures var t := Step(cfg, s, b); t.state.notImproved == Replay(s.notImproved, t.effects)
  {
    var a := Accumulate(cfg, s, b);
    ReplayQuiet(s.notImproved, a.effects);
    if a.status == Running && b.isNewEpoch {
      EpochEndReplays(cfg, a.state, b.devMetric);
      ReplayAppend(s.notImproved, a.effects, EpochEnd(cfg, a.state, b.devMetric).effects);
    }
  }

  /**
   * The counter at the end of a run is exactly what replaying the run's
   * dev evaluations gives: reset to zero by each strict improvement, one
   * more for each evaluated epoch without one.
   */
  lemma {:induction false} NotImprovedCountsMisses(cfg: Config, s: TrainingState, batches: seq<Batch>)
    ensures var r := Run(cfg, s, batches); r.state.notImproved == Replay(s.notImproved, r.effects)
    decreases |batches|
  {
    if batches != [] {
      var t := Step(cfg, s, batches[0]);
      StepReplays(cfg, s, batches[0]);
      if t.status == Running {
        NotImprovedCountsMisses(cfg, t.state, batches[1..]);
        ReplayAppend(s.notImproved, t.effects, Run(cfg, t.state, batches[1..]).effects);
      } else if !t.status.Failed? {
        ReplayAppend(s.notImproved, t.effects, [Complete]);
        ReplayQuiet(t.state.notImproved, [Complete]);
      }
    }
  }

  // ---------------------------------------------------------------------
  // The learning-rate controller

  /** The number of dev evaluations among `fx`. */
  function Evaluations(fx: seq<Effect>): (n: nat)
    decreases |fx|
  {
    if fx == [] then 0 else (if fx[0].DevEvaluated? then 1 else 0) + Evaluations(fx[1..])
  }

  lemma {:induction false} EvaluationsAppend(a: seq<Effect>, b: seq<Effect>)
    ensures Evaluations(a + b) == Evaluations(a) + Evaluations(b)
    decreases |a|
  {
    if a == [] {
      assert a + b == b;
    } else {
      assert (a + b)[0] == a[0] && (a + b)[1..] == a[1..] + b;
      EvaluationsAppend(a[1..], b);
    }
  }

  lemma {:induction false} EvaluationsQuiet(fx: seq<Effect>)
    requires NoEvaluation(fx)
    ensures Evaluations(fx) == 0
    decreases |fx|
  {
    if fx != [] {
      EvaluationsQuiet(fx[1..]);
    }
  }

  lemma EpochEndConsults(cfg: Config, s: TrainingState, measured: real)
    ensures var t := EpochEnd(cfg, s, measured);
      |t.state.controller.seen| + (if t.status == EarlyStopped then 1 else 0)
        == |s.controller.seen| + Evaluations(t.effects)
  {
    var e := EpochEnd(cfg, s, measured);
    var summary := [EpochSummary(s.epoch)];
    if Evaluates(cfg, s, measured) {
      var m := DevMetric(cfg.labelType, measured).value;
      var scored := Score(s, m);
      var next := Reschedule(cfg, scored.state, m);
      assert e.effects == summary + scored.effects + next.effects;
      EvaluationsAppend(summary, scored.effects);
      EvaluationsAppend(summary + scored.effects, next.effects);
      EvaluationsQuiet(summary);
      EvaluationsQuiet(next.effects);
      var rest := scored.effects[1..];
      assert scored.effects == [scored.effects[0]] + rest;
      EvaluationsAppend([scored.effects[0]], rest);
      EvaluationsQuiet(rest);
      DecayBoundary(cfg, s, measured);
    } else {
      if s.epoch < cfg.evalStartEpoch {
        WarmUpBoundary(cfg, s, measured);
      } else {
        UnmeasuredBoundary(cfg, s, measured);
      }
      EvaluationsQuiet(e.effects);
    }
  }

  lemma StepConsults(cfg: Config, s: TrainingState, b: Batch)
    ensures var t := Step(cfg, s, b);
      |t.state.controller.seen| + (if t.status == EarlyStopped then 1 else 0)
        == |s.controller.seen| + Evaluations(t.effects)
  {
    var a := Accumulate(cfg, s, b);
    EvaluationsQuiet(a.effects);
    if a.status == Running && b.isNewEpoch {
      EpochEndConsults(cfg, a.state, b.devMetric);
      EvaluationsAppend(a.effects, EpochEnd(cfg, a.state, b.devMetric).effects);
    }
  }

  /**
   * The controller is consulted once for every scored epoch of a run,
   * except the one that stops it early, and never otherwise.
   */
  lemma {:induction false} ControllerConsultedPerScoredEpoch(cfg: Config, s: TrainingState, batches: seq<Batch>)
    ensures var r := Run(cfg, s, batches);
      |r.state.controller.seen| + (if r.status == EarlyStopped then 1 else 0)
        == |s.controller.seen| + Evaluations(r.effects)
    decreases |batches|
  {
    if batches != [] {
      var t := Step(cfg, s, batches[0]);
      StepConsults(cfg, s, batches[0]);
      if t.status == Running {
        ControllerConsultedPerScoredEpoch(cfg, t.state, batches[1..]);
        EvaluationsAppend(t.effects, Run(cfg, t.state, batches[1..]).effects);
      } else if !t.status.Failed? {
        EvaluationsAppend(t.effects, [Complete]);
      }
    }
  }

  // ---------------------------------------------------------------------
  // Checkpoints

  /** A checkpoint of `snap` right after `prev` is one the driver may write. */
  predicate JustifiedBy(cfg: Config, prev: Effect, snap: Snapshot) {
    || (prev == EpochSummary(snap.epoch) && snap.epoch < cfg.evalStartEpoch)
    || prev == DevEvaluated(snap.epoch, snap.best, true)
  }

  /**
   * Every checkpoint follows either the summary of a warm-up epoch or a dev
   * evaluation that strictly improved on the best, whose metric it stores.
   */
  predicate CheckpointsJustified(cfg: Config, fx: seq<Effect>) {
    forall i :: 0 <= i < |fx| && fx[i].Checkpoint? ==> 0 < i && JustifiedBy(cfg, fx[i - 1], fx[i].snap)
  }

  lemma JustifiedAppend(cfg: Config, a: seq<Effect>, b: seq<Effect>)
    requires CheckpointsJustified(cfg, a) && CheckpointsJustified(cfg, b)
    ensures CheckpointsJustified(cfg, a + b)
  {
    forall i | 0 <= i < |a + b| && (a + b)[i].Checkpoint?
      ensures 0 < i && JustifiedBy(cfg, (a + b)[i - 1], (a + b)[i].snap)
    {
      if i >= |a| {
        assert (a + b)[i] == b[i - |a|];
        assert 0 < i - |a|;
        assert (a + b)[i - 1] == b[i - 1 - |a|];
      }
    }
  }

  lemma EpochEndJustified(cfg: Config, s: TrainingState, measured: real)
    ensures CheckpointsJustified(cfg, EpochEnd(cfg, s, measured).effects)
  {
    var summary := [EpochSummary(s.epoch)];
    if Evaluates(cfg, s, measured) {
      var m := DevMetric(cfg.labelType, measured).value;
      var scored := Score(s, m);
      var next := Reschedule(cfg, scored.state, m);
      JustifiedAppend(cfg, summary, scored.effects);
      JustifiedAppend(cfg, summary + scored.effects, next.effects);
    }
  }

  lemma StepJustified(cfg: Config, s: TrainingState, b: Batch)
    ensures CheckpointsJustified(cfg, Step(cfg, s, b).effects)
  {
    var a := Accumulate(cfg, s, b);
    if a.status == Running && b.isNewEpoch {
      EpochEndJustified(cfg, a.state, b.devMetric);
      JustifiedAppend(cfg, a.effects, EpochEnd(cfg, a.state, b.devMetric).effects);
    }
  }

  /** No checkpoint of a run is written outside the two places the driver saves the model. */
  lemma {:induction false} CheckpointsOnlyAtWarmUpOrImprovement(cfg: Config, s: TrainingState, batches: seq<Batch>)
    ensures CheckpointsJustified(cfg, Run(cfg, s, batches).effects)
    decreases |batches|
  {
    if batches != [] {
      var t := Step(cfg, s, batches[0]);
      StepJustified(cfg, s, batches[0]);
      if t.status == Running {
        CheckpointsOnlyAtWarmUpOrImprovement(cfg, t.state, batches[1..]);
        JustifiedAppend(cfg, t.effects, Run(cfg, t.state, batches[1..]).effects);
      } else if !t.status.Failed? {
        JustifiedAppend(cfg, t.effects, [Complete]);
      }
    }
  }

  // ---------------------------------------------------------------------
  // The conversion to SGD

  /** The number of switches to SGD among `fx`. */
  function Switches(fx: seq<Effect>): (n: nat)
    decreases |fx|
  {
    if fx == [] then 0 else (if fx[0].SwitchedToSgd? then 1 else 0) + Switches(fx[1..])
  }

  lemma {:induction false} SwitchesAppend(a: seq<Effect>, b: seq<Effect>)
    ensures Switches(a + b) == Switches(a) + Switches(b)
    decreases |a|
  {
    if a == [] {
      assert a + b == b;
    } else {
      assert (a + b)[0] == a[0] && (a + b)[1..] == a[1..] + b;
      SwitchesAppend(a[1..], b);
    }
  }

  /** Counting agrees with the existence test used for single boundaries. */
  lemma {:induction false} SwitchesCount(fx: seq<Effect>)
    ensures Switches(fx) > 0 <==> SwitchesToSgd(fx)
    decreases |fx|
  {
    if fx != [] {
      SwitchesCount(fx[1..]);
      if SwitchesToSgd(fx[1..]) {
        var k :| 0 <= k < |fx[1..]| && fx[1..][k].SwitchedToSgd?;
        assert fx[k + 1].SwitchedToSgd?;
      }
      if SwitchesToSgd(fx) && !fx[0].SwitchedToSgd? {
        var k :| 0 <= k < |fx| && fx[k].SwitchedToSgd?;
        assert fx[1..][k - 1].SwitchedToSgd?;
      }
    }
  }

  /** A boundary switches at most once, and only on the conversion epoch. */
  lemma EpochEndSwitches(cfg: Config, s: TrainingState, measured: real)
    ensures var t := EpochEnd(cfg, s, measured);
      && Switches(t.effects) <= 1
      && (Switches(t.effects) == 1 ==> s.epoch == cfg.convertToSgdEpoch)
  {
    var e := EpochEnd(cfg, s, measured);
    var summary := [EpochSummary(s.epoch)];
    if Evaluates(cfg, s, measured) {
      var m := DevMetric(cfg.labelType, measured).value;
      var scored := Score(s, m);
      var next := Reschedule(cfg, scored.state, m);
      assert e.effects == summary + scored.effects + next.effects;
      SwitchesAppend(summary, scored.effects);
      SwitchesAppend(summary + scored.effects, next.effects);
      SwitchesCount(summary);
      SwitchesCount(scored.effects);
      assert Switches(next.effects) == if next.effects == [] then 0 else 1;
    } else {
      SgdBoundary(cfg, s, measured);
      SwitchesCount(e.effects);
    }
  }

  /**
   * One iteration switches at most once, only on the conversion epoch, and
   * a run that goes on afterwards is already past that epoch.
   */
  lemma StepSwitches(cfg: Config, s: TrainingState, b: Batch)
    ensures var t := Step(cfg, s, b);
      && Switches(t.effects) <= 1
      && (Switches(t.effects) == 1 ==> s.epoch == cfg.convertToSgdEpoch)
      && (Switches(t.effects) == 1 && t.status == Running ==> t.state.epoch > cfg.convertToSgdEpoch)
  {
    var a := Accumulate(cfg, s, b);
    SwitchesCount(a.effects);
    if a.status == Running && b.isNewEpoch {
      EpochEndSwitches(cfg, a.state, b.devMetric);
      SwitchesAppend(a.effects, EpochEnd(cfg, a.state, b.devMetric).effects);
    }
  }

  /** Once the conversion epoch is behind, no later epoch converts again. */
  lemma {:induction false} NoSwitchAfterConversion(cfg: Config, s: TrainingState, batches: seq<Batch>)
    requires s.epoch > cfg.convertToSgdEpoch
    ensures Switches(Run(cfg, s, batches).effects) == 0
    decreases |batches|
  {
    if batches != [] {
      var t := Step(cfg, s, batches[0]);
      StepSwitches(cfg, s, batches[0]);
      if t.status == Running {
        NoSwitchAfterConversion(cfg, t.state, batches[1..]);
        SwitchesAppend(t.effects, Run(cfg, t.state, batches[1..]).effects);
      } else if !t.status.Failed? {
        SwitchesAppend(t.effects, [Complete]);
      }
    }
  }

  /** A run converts to SGD at most once. */
  lemma {:induction false} SwitchesAtMostOnce(cfg: Config, s: TrainingState, batches: seq<Batch>)
    ensures Switches(Run(cfg, s, batches).effects) <= 1
    decreases |batches|
  {
    if batches != [] {
      var t := Step(cfg, s, batches[0]);
      StepSwitches(cfg, s, batches[0]);
      if t.status == Running {
        var rest := Run(cfg, t.state, batches[1..]);
        if Switches(t.effects) == 1 {
          NoSwitchAfterConversion(cfg, t.state, batches[1..]);
        } else {
          SwitchesAtMostOnce(cfg, t.state, batches[1..]);
        }
        SwitchesAppend(t.effects, rest.effects);
      } else if !t.status.Failed? {
        SwitchesAppend(t.effects, [Complete]);
      }
    }
  }

  // ---------------------------------------------------------------------
  // Print-interval reports and the step counter

  /** Every report among `fx` was made at `step`. */
  predicate ReportsOnlyAt(fx: seq<Effect>, step: int) {
    forall i :: 0 <= i < |fx| && fx[i].Report? ==> fx[i].step == step
  }

  /** No report among `fx`. */
  predicate Silent(fx: seq<Effect>) {
    forall i :: 0 <= i < |fx| ==> !fx[i].Report?
  }

  lemma ReportsAppend(a: seq<Effect>, b: seq<Effect>, step: int)
    ensures Silent(a) && Silent(b) ==> Silent(a + b)
    ensures ReportsOnlyAt(a, step) && ReportsOnlyAt(b, step) ==> ReportsOnlyAt(a + b, step)
  {
    forall i | |a| <= i < |a + b|
      ensures (a + b)[i] == b[i - |a|]
    {
    }
  }

  /** The boundary procedure never reports. */
  lemma EpochEndSilent(cfg: Config, s: TrainingState, measured: real)
    ensures Silent(EpochEnd(cfg, s, measured).effects)
  {
    var summary := [EpochSummary(s.epoch)];
    if s.epoch >= cfg.evalStartEpoch && DevMetric(cfg.labelType, measured).Measured? {
      var m := DevMetric(cfg.labelType, measured).value;
      var scored := Score(s, m);
      var next := Reschedule(cfg, scored.state, m);
      ReportsAppend(summary, scored.effects, 0);
      ReportsAppend(summary + scored.effects, next.effects, 0);
    }
  }

  /**
   * With zero GPUs (the default) `step` never moves, so every report of the
   * run is made at the starting step, and if no report is due there none is
   * ever made: reports fire on every batch or on none.
   */
  lemma {:induction false} FrozenStepReports(cfg: Config, s: TrainingState, batches: seq<Batch>)
    requires cfg.ngpus == 0
    ensures ReportsOnlyAt(Run(cfg, s, batches).effects, s.step)
    ensures !ReportDue(cfg, s.step) ==> Silent(Run(cfg, s, batches).effects)
    decreases |batches|
  {
    if batches != [] {
      var b := batches[0];
      var a := Accumulate(cfg, s, b);
      var t := Step(cfg, s, b);
      if a.status == Running && b.isNewEpoch {
        EpochEndSilent(cfg, a.state, b.devMetric);
        ReportsAppend(a.effects, EpochEnd(cfg, a.state, b.devMetric).effects, s.step);
      }
      if t.status == Running {
        var rest := Run(cfg, t.state, batches[1..]);
        FrozenStepReports(cfg, t.state, batches[1..]);
        ReportsAppend(t.effects, rest.effects, s.step);
      } else if !t.status.Failed? {
        ReportsAppend(t.effects, [Complete], s.step);
      }
    }
  }

  /**
   * A step that is a multiple of the GPU count is never one below a
   * multiple of a print interval that the GPU count divides.
   */
  lemma NotOneBelow(ngpus: int, j: int, k: int, q: int)
    requires ngpus > 1
    ensures k * ngpus + 1 != q * (j * ngpus)
  {
    var d := q * j - k;
    assert q * (j * ngpus) - k * ngpus == d * ngpus;
    if d <= 0 {
      assert d * ngpus <= 0;
    } else {
      assert d * ngpus >= ngpus;
    }
  }

  /**
   * With several GPUs `step` moves in strides of the GPU count; when that
   * count divides the effective print interval, `(step + 1) % print_step`
   * is never zero and the run makes no report at all.
   */
  lemma {:induction false} StrideSkipsReports(cfg: Config, s: TrainingState, batches: seq<Batch>, j: int, k: int)
    requires cfg.ngpus > 1 && PrintStep(cfg) == j * cfg.ngpus && s.step == k * cfg.ngpus
    ensures Silent(Run(cfg, s, batches).effects)
    decreases |batches|
  {
    if batches != [] {
      var b := batches[0];
      var a := Accumulate(cfg, s, b);
      var t := Step(cfg, s, b);
      var p := PrintStep(cfg);
      if p != 0 {
        var q := (s.step + 1) / p;
        NotOneBelow(cfg.ngpus, j, k, q);
        assert s.step + 1 == q * p + (s.step + 1) % p;
      }
      assert !ReportDue(cfg, s.step);
      if a.status == Running && b.isNewEpoch {
        EpochEndSilent(cfg, a.state, b.devMetric);
        ReportsAppend(a.effects, EpochEnd(cfg, a.state, b.devMetric).effects, 0);
      }
      if t.status == Running {
        var rest := Run(cfg, t.state, batches[1..]);
        assert t.state.step == (k + 1) * cfg.ngpus;
        StrideSkipsReports(cfg, t.state, batches[1..], j, k + 1);
        ReportsAppend(t.effects, rest.effects, 0);
      } else if !t.status.Failed? {
        ReportsAppend(t.effects, [Complete], 0);
      }
    }
  }

  /** A fresh run on two GPUs with `print_step: 200` never reports. */
  lemma TwoGpusNeverReport(cfg: Config, batches: seq<Batch>)
    requires cfg.ngpus == 2 && cfg.printStep == 200
    ensures Silent(Run(cfg, Initial(cfg), batches).effects)
  {
    StrideSkipsReports(cfg, Initial(cfg), batches, 50, 0);
  }

  // ---------------------------------------------------------------------
  // Label types without a dev metric

  /** No dev evaluation among `fx` produced a metric. */
  predicate NoEvaluation(fx: seq<Effect>) {
    forall i :: 0 <= i < |fx| ==> !fx[i].DevEvaluated?
  }

  /**
   * With a label type that yields no dev metric (any `phone...` type, or
   * an unknown one) no epoch is ever scored, the run can never stop early,
   * and it can only finish if the last epoch comes before evaluation starts.
   */
  lemma {:induction false} UnmeasurableLabelNeverScores(cfg: Config, s: TrainingState, batches: seq<Batch>)
    requires cfg.labelType != "word" && !Contains(cfg.labelType, "character")
    ensures var r := Run(cfg, s, batches);
      && NoEvaluation(r.effects)
      && r.status != EarlyStopped
      && (r.status == Finished ==> r.state.epoch == cfg.numEpoch < cfg.evalStartEpoch)
    decreases |batches|
  {
    if batches != [] {
      var b := batches[0];
      var a := Accumulate(cfg, s, b);
      var t := Step(cfg, s, b);
      if a.status == Running && b.isNewEpoch {
        if a.state.epoch < cfg.evalStartEpoch {
          WarmUpBoundary(cfg, a.state, b.devMetric);
        } else {
          UnmeasuredBoundary(cfg, a.state, b.devMetric);
        }
        assert t.effects == a.effects + EpochEnd(cfg, a.state, b.devMetric).effects;
      }
      assert NoEvaluation(t.effects);
      if t.status == Running {
        var rest := Run(cfg, t.state, batches[1..]);
        UnmeasurableLabelNeverScores(cfg, t.state, batches[1..]);
        assert forall i :: |t.effects| <= i < |t.effects + rest.effects| ==>
          (t.effects + rest.effects)[i] == rest.effects[i - |t.effects|];
      } else if !t.status.Failed? {
        assert (t.effects + [Complete])[..|t.effects|] == t.effects;
      }
    }
  }

  // ---------------------------------------------------------------------
  // Scenarios

  /** Batch `i` of a scenario ends an epoch and the dev evaluator reports `metric`. */
  function EpochEnder(metric: real): (b: Batch) {
    Batch(0.0, 0.0, 0.0, 0.0, true, metric)
  }

  /**
   * Warm-up: with evaluation starting at epoch 3, a fresh run checkpoints
   * epochs 1 and 2 without evaluating, then epoch 3 with a dev error rate
   * of 20 improves on the sentinel 100, resets the counter, checkpoints the
   * new best and evaluates the held-out sets.
   */
  lemma WarmUpThenImprove(cfg: Config)
    requires cfg.evalStartEpoch == 3 && cfg.numEpoch > 3 && cfg.patience > 0
    requires cfg.labelType == "word" && cfg.ngpus == 1 && cfg.printStep > 3
    ensures var r := Run(cfg, Initial(cfg), [EpochEnder(50.0), EpochEnder(30.0), EpochEnder(20.0)]);
      && r.status == Running
      && r.state.epoch == 4 && r.state.best == 20.0 && r.state.notImproved == 0
      && |r.effects| >= 8
      && r.effects[..8] == [EpochSummary(1), Checkpoint(Snapshot(1, 1, cfg.learningRate, 100.0)),
                            EpochSummary(2), Checkpoint(Snapshot(2, 2, cfg.learningRate, 100.0)),
                            EpochSummary(3), DevEvaluated(3, 20.0, true),
                            Checkpoint(Snapshot(3, 3, cfg.learningRate, 20.0)), HeldOutEvaluated(3)]
  {
    var bs := [EpochEnder(50.0), EpochEnder(30.0), EpochEnder(20.0)];
    var s0 := Initial(cfg);
    var t1 := Step(cfg, s0, bs[0]);
    assert t1.effects == [EpochSummary(1), Checkpoint(Snapshot(1, 1, cfg.learningRate, 100.0))];
    var t2 := Step(cfg, t1.state, bs[1]);
    assert t2.effects == [EpochSummary(2), Checkpoint(Snapshot(2, 2, cfg.learningRate, 100.0))];
    var t3 := Step(cfg, t2.state, bs[2]);
    ImprovedBoundary(cfg, t2.state.(step := 3), 20.0);
    assert bs[1..][1..] == [bs[2]] && [bs[2]][1..] == [];
    var r := Run(cfg, s0, bs);
    assert r.effects == t1.effects + (t2.effects + (t3.effects + []));
  }

  /**
   * Patience 2 from a best of 15: a dev error rate of 16 counts one bad
   * epoch and decays the rate; 17 counts the second and stops the run
   * right away, without a checkpoint and without a second decay.
   */
  lemma PatienceRunsOut(cfg: Config, s: TrainingState)
    requires cfg.patience == 2 && cfg.labelType == "word" && PrintStep(cfg) != 0
    requires s.best == 15.0 && s.notImproved == 0
    requires cfg.evalStartEpoch <= s.epoch < cfg.numEpoch
    ensures var r := Run(cfg, s, [EpochEnder(16.0), EpochEnder(17.0)]);
      && r.status == EarlyStopped
      && r.state.notImproved == 2 && r.state.best == 15.0
      && r.state.epoch == s.epoch + 1
      && r.state.lr == cfg.decay(s.controller, Observation(s.lr, s.epoch, 16.0))
      && r.state.controller.seen == s.controller.seen + [Observation(s.lr, s.epoch, 16.0)]
      && NoCheckpoint(r.effects)
      && r.effects[|r.effects| - 1] == Complete
  {
    var bs := [EpochEnder(16.0), EpochEnder(17.0)];
    var t1 := Step(cfg, s, bs[0]);
    var a1 := Accumulate(cfg, s, bs[0]);
    StagnantBoundary(cfg, a1.state, 16.0);
    EarlyStopBoundary(cfg, a1.state, 16.0);
    DecayBoundary(cfg, a1.state, 16.0);
    var t2 := Step(cfg, t1.state, bs[1]);
    var a2 := Accumulate(cfg, t1.state, bs[1]);
    StagnantBoundary(cfg, a2.state, 17.0);
    EarlyStopBoundary(cfg, a2.state, 17.0);
    assert bs[1..] == [bs[1]];
    var r := Run(cfg, s, bs);
    assert r.effects == t1.effects + (t2.effects + [Complete]);
    assert NoCheckpoint(t1.effects) && NoCheckpoint(t2.effects);
  }
}
