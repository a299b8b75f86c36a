/**
 * What one run of the epoch-boundary procedure does, case by case: warm-up
 * epochs, a dev metric that cannot be obtained, a strict improvement, no
 * improvement, early stop, learning-rate decay, the SGD conversion and the
 * end-of-epoch advance.
 */
module Boundary {
  import opened Labels
  import opened Schedule

  /** The epoch is past warm-up and the dev evaluation produced a metric. */
  predicate Evaluates(cfg: Config, s: TrainingState, measured: real) {
    s.epoch >= cfg.evalStartEpoch && DevMetric(cfg.labelType, measured).Measured?
  }

  /** Warm-up: a checkpoint of the current state and nothing else. */
  lemma WarmUpBoundary(cfg: Config, s: TrainingState, measured: real)
    requires s.epoch < cfg.evalStartEpoch
    ensures var t := EpochEnd(cfg, s, measured);
      && t.effects == [EpochSummary(s.epoch), Checkpoint(Snapshot(s.epoch, s.step, s.lr, s.best))]
      && t.state.(epoch := s.epoch) == s
      && (t.status == Running || t.status == Finished)
  {
  }

  /** No dev metric: the run fails right after the epoch summary, state untouched. */
  lemma UnmeasuredBoundary(cfg: Config, s: TrainingState, measured: real)
    requires s.epoch >= cfg.evalStartEpoch
    requires cfg.labelType != "word" && !Contains(cfg.labelType, "character")
    ensures var t := EpochEnd(cfg, s, measured);
      && t.state == s && t.effects == [EpochSummary(s.epoch)]
      && t.status == Failed(if Contains(cfg.labelType, "phone") then MetricUnbound
                            else UnknownLabelType(cfg.labelType))
  {
  }

  /**
   * Strict improvement: the best becomes the metric, the counter is reset,
   * the checkpoint carries the new best, and only then are the held-out
   * sets evaluated.
   */
  lemma ImprovedBoundary(cfg: Config, s: TrainingState, measured: real)
    requires Evaluates(cfg, s, measured) && measured < s.best
    ensures var t := EpochEnd(cfg, s, measured);
      && t.state.best == measured && t.state.notImproved == 0
      && |t.effects| >= 4
      && t.effects[..4] == [EpochSummary(s.epoch),
                            DevEvaluated(s.epoch, measured, true),
                            Checkpoint(Snapshot(s.epoch, s.step, s.lr, measured)),
                            HeldOutEvaluated(s.epoch)]
  {
  }

  /** No strict improvement (ties included): one more bad epoch, no checkpoint. */
  lemma StagnantBoundary(cfg: Config, s: TrainingState, measured: real)
    requires Evaluates(cfg, s, measured) && measured >= s.best
    ensures var t := EpochEnd(cfg, s, measured);
      && t.state.best == s.best && t.state.notImproved == s.notImproved + 1
      && |t.effects| >= 2 && t.effects[..2] == [EpochSummary(s.epoch), DevEvaluated(s.epoch, measured, false)]
      && NoCheckpoint(t.effects)
  {
    var t := EpochEnd(cfg, s, measured);
    assert t.effects == [EpochSummary(s.epoch), DevEvaluated(s.epoch, measured, false)] + Reschedule(cfg, Score(s, measured).state, measured).effects;
  }

  /**
   * Early stop fires exactly when the counter, after the bookkeeping, equals
   * the patience; it leaves the learning rate, the optimizer and the epoch
   * as they were.
   */
  lemma EarlyStopBoundary(cfg: Config, s: TrainingState, measured: real)
    ensures var t := EpochEnd(cfg, s, measured);
      t.status == EarlyStopped <==> Evaluates(cfg, s, measured) && t.state.notImproved == cfg.patience
    ensures var t := EpochEnd(cfg, s, measured);
      t.status == EarlyStopped ==>
        && t.state.epoch == s.epoch && t.state.lr == s.lr
        && t.state.optimizer == s.optimizer && t.state.weightNoise == s.weightNoise
        && !SwitchesToSgd(t.effects)
  {
  }

  /**
   * On every evaluated epoch that does not stop early the controller is
   * given the current rate, the epoch and the dev metric, and its answer
   * becomes the learning rate; an early stop leaves the controller alone.
   */
  lemma DecayBoundary(cfg: Config, s: TrainingState, measured: real)
    requires Evaluates(cfg, s, measured)
    ensures var t := EpochEnd(cfg, s, measured); var obs := Observation(s.lr, s.epoch, measured);
      t.status != EarlyStopped ==>
        && t.state.lr == cfg.decay(s.controller, obs)
        && t.state.controller == s.controller.(seen := s.controller.seen + [obs])
    ensures var t := EpochEnd(cfg, s, measured);
      t.status == EarlyStopped ==> t.state.controller == s.controller
  {
  }

  /**
   * The switch to SGD happens exactly on an evaluated epoch equal to the
   * conversion epoch that did not stop early, it uses the decayed rate, and
   * the weight-noise flag is only ever raised together with it when the
   * configured noise is positive.
   */
  lemma SgdBoundary(cfg: Config, s: TrainingState, measured: real)
    ensures var t := EpochEnd(cfg, s, measured);
      SwitchesToSgd(t.effects) <==>
        Evaluates(cfg, s, measured) && t.status != EarlyStopped && s.epoch == cfg.convertToSgdEpoch
    ensures var t := EpochEnd(cfg, s, measured);
      SwitchesToSgd(t.effects) ==> t.effects[|t.effects| - 1] == SwitchedToSgd(s.epoch, t.state.lr)
    ensures var t := EpochEnd(cfg, s, measured);
      t.state.optimizer == if SwitchesToSgd(t.effects) then Sgd else s.optimizer
    ensures var t := EpochEnd(cfg, s, measured);
      t.state.weightNoise == (s.weightNoise || (SwitchesToSgd(t.effects) && cfg.weightNoiseStd > 0.0))
  {
    var t := EpochEnd(cfg, s, measured);
    if Evaluates(cfg, s, measured) && t.status != EarlyStopped && s.epoch == cfg.convertToSgdEpoch {
      assert t.effects[|t.effects| - 1].SwitchedToSgd?;
    }
  }

  /** The loop ends at the last configured epoch; otherwise the epoch grows by one. */
  lemma AdvanceBoundary(cfg: Config, s: TrainingState, measured: real)
    ensures var t := EpochEnd(cfg, s, measured);
      t.status == Finished <==> !t.status.Failed? && t.status != EarlyStopped && s.epoch == cfg.numEpoch
    ensures var t := EpochEnd(cfg, s, measured);
      t.state.epoch == if t.status == Running then s.epoch + 1 else s.epoch
  {
  }
}
