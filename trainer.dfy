/**
 * The training driver as the source runs it: one object whose fields the
 * loop updates in place, a per-batch method, the epoch-boundary method and
 * the loop itself, each proved to compute what module Schedule specifies.
 */
module Driver {
  import opened Labels
  import opened Schedule

  class Trainer {
    const cfg: Config
    /** `print_step` after the multi-GPU adjustment made at start-up. */
    const printStep: int

    var epoch: int
    var step: int
    var lr: real
    var best: real
    var notImproved: int
    var lossSum: real
    var accSum: real
    var optimizer: string
    var weightNoise: bool
    /** The learning-rate controller built at start-up. */
    var controller: Controller
    /** The `COMPLETE` marker has been written. */
    var done: bool
    /** Every report, summary, evaluation, checkpoint and optimizer switch so far. */
    ghost var log: seq<Effect>

    /** The fields the loop updates, as one value. */
    function Current(): TrainingState
      reads this
    {
      TrainingState(epoch, step, lr, best, notImproved, lossSum, accSum, optimizer, weightNoise, controller)
    }

    /** A fresh run. */
    constructor Fresh(config: Config)
      ensures cfg == config && printStep == PrintStep(config)
      ensures Current() == Initial(config)
      ensures !done && log == []
    {
      cfg := config;
      printStep := EffectivePrintStep(config.printStep, config.ngpus);
      epoch, step := 1, 0;
      lr := config.learningRate;
      best := InitialBest;
      notImproved := 0;
      lossSum, accSum := 0.0, 0.0;
      optimizer := config.optimizer;
      weightNoise := false;
      controller := Controller(lr, best, []);
      done := false;
      log := [];
    }

    /** A restart from the scalars of a saved checkpoint. */
    constructor Resume(config: Config, saved: Snapshot)
      ensures cfg == config && printStep == PrintStep(config)
      ensures Current() == Restored(config, saved)
      ensures !done && log == []
    {
      cfg := config;
      printStep := EffectivePrintStep(config.printStep, config.ngpus);
      epoch, step, lr, best := saved.epoch, saved.step, saved.lr, saved.best;
      notImproved := 0;
      lossSum, accSum := 0.0, 0.0;
      optimizer := config.optimizer;
      weightNoise := false;
      controller := Controller(lr, best, []);
      done := false;
      log := [];
    }

    /** Adds one batch's results to the sums, reports when due and advances `step`. */
    method TrainBatch(b: Batch) returns (status: Status)
      requires printStep == PrintStep(cfg)
      modifies this
      ensures var t := Accumulate(cfg, old(Current()), b);
        Current() == t.state && log == old(log) + t.effects && status == t.status
      ensures done == old(done)
    {
      lossSum := lossSum + b.loss;
      accSum := accSum + b.acc;
      if printStep == 0 {
        return Failed(ZeroPrintStep);
      }
      if (step + 1) % printStep == 0 {
        lossSum := lossSum / printStep as real;
        accSum := accSum / printStep as real;
        log := log + [Report(step, lossSum, b.devLoss, accSum, b.devAcc)];
        lossSum, accSum := 0.0, 0.0;
      }
      step := step + cfg.ngpus;
      status := Running;
    }

    /** Best-score bookkeeping for the dev metric `m` of the current epoch. */
    method UpdateBest(m: real)
      modifies this
      ensures var t := Score(old(Current()), m);
        Current() == t.state && log == old(log) + t.effects
      ensures done == old(done)
    {
      if m < best {
        best := m;
        notImproved := 0;
        log := log + [DevEvaluated(epoch, m, true), Checkpoint(Snapshot(epoch, step, lr, best)),
                      HeldOutEvaluated(epoch)];
      } else {
        notImproved := notImproved + 1;
        log := log + [DevEvaluated(epoch, m, false)];
      }
    }

    /** Early stop, or the learning-rate decay and the conversion to SGD. */
    method AdjustSchedule(m: real) returns (status: Status)
      modifies this
      ensures var t := Reschedule(cfg, old(Current()), m);
        Current() == t.state && log == old(log) + t.effects && status == t.status
      ensures done == old(done)
    {
      if notImproved == cfg.patience {
        return EarlyStopped;
      }
      var obs := Observation(lr, epoch, m);
      lr := cfg.decay(controller, obs);
      controller := controller.(seen := controller.seen + [obs]);
      if epoch == cfg.convertToSgdEpoch {
        optimizer := Sgd;
        log := log + [SwitchedToSgd(epoch, lr)];
        if cfg.weightNoiseStd > 0.0 {
          weightNoise := true;
        }
      }
      status := Running;
    }

    /** The epoch-boundary procedure, given the error rate the dev evaluator returns. */
    method EpochBoundary(measured: real) returns (status: Status)
      modifies this
      ensures var t := EpochEnd(cfg, old(Current()), measured);
        Current() == t.state && log == old(log) + t.effects && status == t.status
      ensures done == old(done)
    {
      log := log + [EpochSummary(epoch)];
      if epoch < cfg.evalStartEpoch {
        log := log + [Checkpoint(Snapshot(epoch, step, lr, best))];
      } else {
        var metric := DevMetric(cfg.labelType, measured);
        if metric == Unassigned {
          return Failed(MetricUnbound);
        } else if metric == Unrecognized {
          return Failed(UnknownLabelType(cfg.labelType));
        }
        UpdateBest(metric.value);
        status := AdjustSchedule(metric.value);
        if status == EarlyStopped {
          return;
        }
      }
      if epoch == cfg.numEpoch {
        return Finished;
      }
      epoch := epoch + 1;
      status := Running;
    }

    /** One iteration of the loop body. */
    method Iterate(b: Batch) returns (status: Status)
      requires printStep == PrintStep(cfg)
      modifies this
      ensures var t := Step(cfg, old(Current()), b);
        Current() == t.state && log == old(log) + t.effects && status == t.status
      ensures done == old(done)
    {
      ghost var a := Accumulate(cfg, Current(), b);
      ghost var log0 := log;
      status := TrainBatch(b);
      if status == Running && b.isNewEpoch {
        status := EpochBoundary(b.devMetric);
        Associative(log0, a.effects, EpochEnd(cfg, a.state, b.devMetric).effects);
      }
    }

    /**
     * The training loop over the batches the data loader delivers, then the
     * completion marker if the loop was left by early stop or by reaching
     * the last epoch.
     */
    method Train(batches: seq<Batch>) returns (status: Status)
      requires printStep == PrintStep(cfg)
      modifies this
      ensures var r := Run(cfg, old(Current()), batches);
        Current() == r.state && log == old(log) + r.effects && status == r.status
      ensures done == (old(done) || status == EarlyStopped || status == Finished)
    {
      ghost var whole := Run(cfg, Current(), batches);
      ghost var log0 := log;
      ghost var done0 := done;
      ghost var trace: seq<Effect> := [];
      assert batches[0..] == batches && [] + whole.effects == whole.effects;
      status := Running;
      var i := 0;
      while i < |batches|
        invariant 0 <= i <= |batches|
        invariant printStep == PrintStep(cfg)
        invariant done == done0
        invariant log == log0 + trace
        invariant whole == Prepend(trace, Run(cfg, Current(), batches[i..]))
        invariant status == Running
      {
        var b := batches[i];
        ghost var t := Step(cfg, Current(), b);
        RunAdvance(cfg, Current(), batches, i, trace, whole);
        status := Iterate(b);
        Associative(log0, trace, t.effects);
        trace := trace + t.effects;
        if status != Running {
          break;
        }
        i := i + 1;
      }
      if status == Running {
        RunExhausted(cfg, Current(), batches, trace, whole);
      } else if status == EarlyStopped || status == Finished {
        Associative(log0, trace, [Complete]);
        log := log + [Complete];
        done := true;
      }
    }
  }

  /** Proof hint: regroups the log while the loop appends to it. */
  lemma Associative(a: seq<Effect>, b: seq<Effect>, c: seq<Effect>)
    ensures a + b + c == a + (b + c)
  {
  }
}
