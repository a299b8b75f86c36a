/**
 * The control state machine of the training driver as pure functions:
 * the state the loop carries, one batch of the `while True` loop
 * (`Accumulate`), the epoch-boundary procedure (`EpochEnd`), one
 * iteration (`Step`) and a whole run over a finite sequence of batches
 * (`Run`). The class in module Driver is proved to compute exactly these.
 */
module Schedule {
  import opened Labels

  /** Initial `metric_dev_best` of a fresh run (error rates are percentages). */
  const InitialBest: real := 100.0

  /** Optimizer tag installed by the conversion to the fine-tuning stage. */
  const Sgd: string := "sgd"

  /** One call of the learning-rate controller: the rate, epoch and dev metric it is given. */
  datatype Observation = Observation(lr: real, epoch: int, value: real)

  /**
   * What determines the learning-rate controller's answer: it is built
   * from the rate and the best score in force when the driver starts, and
   * remembers every observation it has been given since.
   */
  datatype Controller = Controller(lrInit: real, bestInit: real, seen: seq<Observation>)

  /**
   * The configuration keys that affect control flow, and the number of GPUs.
   * `decay` stands for the controller's policy: the new rate it returns for
   * an observation, given what it has seen before.
   */
  datatype Config = Config(
    learningRate: real,
    printStep: int,
    ngpus: int,
    numEpoch: int,
    evalStartEpoch: int,
    patience: int,
    convertToSgdEpoch: int,
    weightNoiseStd: real,
    labelType: string,
    optimizer: string,
    decay: (Controller, Observation) -> real)

  /** The four scalars a checkpoint stores next to the parameters. */
  datatype Snapshot = Snapshot(epoch: int, step: int, lr: real, best: real)

  /** Everything the loop updates in place. */
  datatype TrainingState = TrainingState(
    epoch: int,
    step: int,
    lr: real,
    best: real,
    notImproved: int,
    lossSum: real,
    accSum: real,
    optimizer: string,
    weightNoise: bool,
    controller: Controller)

  /**
   * One iteration's input: the training loss and accuracy of the update
   * step, the dev-batch loss and accuracy used when a report is due, the
   * data loader's epoch flag and the error rate the dev evaluator would
   * return at an epoch boundary.
   */
  datatype Batch = Batch(
    loss: real,
    acc: real,
    devLoss: real,
    devAcc: real,
    isNewEpoch: bool,
    devMetric: real)

  datatype Error =
    | ZeroPrintStep                     // `(step + 1) % print_step` with print_step 0
    | MetricUnbound                     // `metric_dev` read before assignment (phone labels)
    | UnknownLabelType(labelType: string)

  datatype Status = Running | EarlyStopped | Finished | Failed(error: Error)

  /** Externally visible actions, in the order the driver performs them. */
  datatype Effect =
    | Report(step: int, lossTrain: real, lossDev: real, accTrain: real, accDev: real)
    | EpochSummary(epoch: int)
    | Checkpoint(snap: Snapshot)
    | DevEvaluated(epoch: int, metric: real, improved: bool)
    | HeldOutEvaluated(epoch: int)
    | SwitchedToSgd(epoch: int, lr: real)
    | Complete

  /** New state, the actions performed on the way, and whether the loop goes on. */
  datatype Transition = Transition(state: TrainingState, effects: seq<Effect>, status: Status)

  function SnapshotOf(s: TrainingState): (snap: Snapshot) {
    Snapshot(s.epoch, s.step, s.lr, s.best)
  }

  /** The state of a fresh run: epoch 1, step 0, the configured rate and the sentinel best score. */
  function Initial(cfg: Config): (s: TrainingState)
    ensures SnapshotOf(s) == Snapshot(1, 0, cfg.learningRate, InitialBest)
    ensures s.notImproved == 0 && s.lossSum == 0.0 && s.accSum == 0.0
    ensures s.optimizer == cfg.optimizer && !s.weightNoise
    ensures s.controller == Controller(cfg.learningRate, InitialBest, [])
  {
    TrainingState(1, 0, cfg.learningRate, InitialBest, 0, 0.0, 0.0, cfg.optimizer, false,
                  Controller(cfg.learningRate, InitialBest, []))
  }

  /**
   * The state of a restarted run: the four checkpointed scalars come back
   * exactly as saved, the controller is built from them and everything
   * else starts over.
   */
  function Restored(cfg: Config, saved: Snapshot): (s: TrainingState)
    ensures SnapshotOf(s) == saved
    ensures s.controller == Controller(saved.lr, saved.best, [])
    ensures s.(epoch := 1, step := 0, lr := cfg.learningRate, best := InitialBest,
               controller := Initial(cfg).controller) == Initial(cfg)
  {
    TrainingState(saved.epoch, saved.step, saved.lr, saved.best, 0, 0.0, 0.0, cfg.optimizer, false,
                  Controller(saved.lr, saved.best, []))
  }

  predicate NoCheckpoint(fx: seq<Effect>) {
    forall i :: 0 <= i < |fx| ==> !fx[i].Checkpoint?
  }

  predicate SwitchesToSgd(fx: seq<Effect>) {
    exists i :: 0 <= i < |fx| && fx[i].SwitchedToSgd?
  }

  /**
   * The print interval in force: with more than one GPU the configured one
   * is floor-divided by the number of GPUs.
   */
  function EffectivePrintStep(printStep: int, ngpus: int): (p: int) {
    if ngpus > 1 then printStep / ngpus else printStep
  }

  /** The adjustment is Python's floor division: `p` is the largest `q` with `q * ngpus <= printStep`. */
  lemma EffectivePrintStepFloors(printStep: int, ngpus: int)
    ensures var p := EffectivePrintStep(printStep, ngpus);
      && (ngpus <= 1 ==> p == printStep)
      && (ngpus > 1 ==> p * ngpus <= printStep < p * ngpus + ngpus)
  {
  }

  function PrintStep(cfg: Config): (p: int) {
    EffectivePrintStep(cfg.printStep, cfg.ngpus)
  }

  /** A report is due for the batch processed at `step` (decided before `step` advances). */
  predicate ReportDue(cfg: Config, step: int) {
    PrintStep(cfg) != 0 && (step + 1) % PrintStep(cfg) == 0
  }

  /** The per-batch part of one loop iteration. */
  function Accumulate(cfg: Config, s: TrainingState, b: Batch): (t: Transition)
    ensures t.status == Running || t.status == Failed(ZeroPrintStep)
    ensures t.status.Failed? <==> PrintStep(cfg) == 0
    // only the step counter and the running sums change
    ensures t.state.(step := s.step, lossSum := s.lossSum, accSum := s.accSum) == s
    ensures t.state.step == if t.status == Running then s.step + cfg.ngpus else s.step
    // a due report carries the interval means and empties the sums
    ensures ReportDue(cfg, s.step) ==>
      var p := PrintStep(cfg) as real;
      && t.effects == [Report(s.step, (s.lossSum + b.loss) / p, b.devLoss, (s.accSum + b.acc) / p, b.devAcc)]
      && t.state.lossSum == 0.0 && t.state.accSum == 0.0
    // otherwise the batch's loss and accuracy are added to the sums
    ensures !ReportDue(cfg, s.step) ==>
      && t.effects == []
      && t.state.lossSum == s.lossSum + b.loss && t.state.accSum == s.accSum + b.acc
  {
    var lossSum := s.lossSum + b.loss;
    var accSum := s.accSum + b.acc;
    var p := PrintStep(cfg);
    if p == 0 then
      Transition(s.(lossSum := lossSum, accSum := accSum), [], Failed(ZeroPrintStep))
    else if (s.step + 1) % p == 0 then
      var report := Report(s.step, lossSum / p as real, b.devLoss, accSum / p as real, b.devAcc);
      Transition(s.(lossSum := 0.0, accSum := 0.0, step := s.step + cfg.ngpus), [report], Running)
    else
      Transition(s.(lossSum := lossSum, accSum := accSum, step := s.step + cfg.ngpus), [], Running)
  }

  /** Stop after the last configured epoch, otherwise move on to the next one. */
  function Advance(cfg: Config, s: TrainingState, fx: seq<Effect>): (t: Transition)
    ensures t.effects == fx
    ensures t.status == Finished <==> s.epoch == cfg.numEpoch
    ensures t.status == Running <==> s.epoch != cfg.numEpoch
    ensures t.state == if t.status == Running then s.(epoch := s.epoch + 1) else s
  {
    if s.epoch == cfg.numEpoch then Transition(s, fx, Finished)
    else Transition(s.(epoch := s.epoch + 1), fx, Running)
  }

  /**
   * The best-score bookkeeping after a dev evaluation that produced `m`:
   * a strict improvement records the new best, resets the counter, saves a
   * checkpoint and evaluates the held-out sets; anything else counts one
   * more epoch without improvement.
   */
  function Score(s: TrainingState, m: real): (t: Transition) {
    if m < s.best then
      var scored := s.(best := m, notImproved := 0);
      Transition(scored, [DevEvaluated(s.epoch, m, true), Checkpoint(SnapshotOf(scored)), HeldOutEvaluated(s.epoch)], Running)
    else
      Transition(s.(notImproved := s.notImproved + 1), [DevEvaluated(s.epoch, m, false)], Running)
  }

  /**
   * What follows the bookkeeping of an evaluated epoch: early stop, or the
   * learning-rate decay followed, at the conversion epoch, by the switch to
   * SGD with the decayed rate.
   */
  function Reschedule(cfg: Config, s: TrainingState, m: real): (t: Transition) {
    if s.notImproved == cfg.patience then
      Transition(s, [], EarlyStopped)
    else
      var obs := Observation(s.lr, s.epoch, m);
      var lr := cfg.decay(s.controller, obs);
      var controller := s.controller.(seen := s.controller.seen + [obs]);
      if s.epoch == cfg.convertToSgdEpoch then
        var noise := s.weightNoise || cfg.weightNoiseStd > 0.0;
        Transition(s.(lr := lr, controller := controller, optimizer := Sgd, weightNoise := noise),
                   [SwitchedToSgd(s.epoch, lr)], Running)
      else
        Transition(s.(lr := lr, controller := controller), [], Running)
  }

  /** The epoch-boundary procedure; `measured` is what the dev evaluator returns. */
  function EpochEnd(cfg: Config, s: TrainingState, measured: real): (t: Transition)
    ensures t.state.step == s.step && t.state.lossSum == s.lossSum && t.state.accSum == s.accSum
    ensures t.state.best <= s.best
    ensures |t.effects| >= 1 && t.effects[0] == EpochSummary(s.epoch)
    ensures Complete !in t.effects
    ensures t.state.epoch == if t.status == Running then s.epoch + 1 else s.epoch
  {
    var summary := [EpochSummary(s.epoch)];
    if s.epoch < cfg.evalStartEpoch then
      Advance(cfg, s, summary + [Checkpoint(SnapshotOf(s))])
    else
      match DevMetric(cfg.labelType, measured)
      case Unassigned => Transition(s, summary, Failed(MetricUnbound))
      case Unrecognized => Transition(s, summary, Failed(UnknownLabelType(cfg.labelType)))
      case Measured(m) =>
        var scored := Score(s, m);
        var next := Reschedule(cfg, scored.state, m);
        var fx := summary + scored.effects + next.effects;
        if next.status == EarlyStopped then Transition(next.state, fx, EarlyStopped)
        else Advance(cfg, next.state, fx)
  }

  /** One iteration of the loop: the batch, then the boundary procedure if the epoch ended. */
  function Step(cfg: Config, s: TrainingState, b: Batch): (t: Transition)
    ensures t.state.best <= s.best
    ensures s.epoch <= t.state.epoch <= s.epoch + 1
    ensures t.state.step == if t.status == Failed(ZeroPrintStep) then s.step else s.step + cfg.ngpus
    ensures Complete !in t.effects
    ensures !b.isNewEpoch ==>
      && NoCheckpoint(t.effects) && t.state.epoch == s.epoch
      && (t.status == Running || t.status == Failed(ZeroPrintStep))
  {
    var a := Accumulate(cfg, s, b);
    if a.status == Running && b.isNewEpoch then
      var e := EpochEnd(cfg, a.state, b.devMetric);
      Transition(e.state, a.effects + e.effects, e.status)
    else
      a
  }

  /**
   * The loop over a finite sequence of batches, followed by the completion
   * marker when the loop was left by one of its two `break`s. A run that
   * fails, or that runs out of batches, writes no marker.
   */
  function Run(cfg: Config, s: TrainingState, batches: seq<Batch>): (r: Transition)
    decreases |batches|
  {
    if batches == [] then
      Transition(s, [], Running)
    else
      var t := Step(cfg, s, batches[0]);
      if t.status == Running then
        var rest := Run(cfg, t.state, batches[1..]);
        Transition(rest.state, t.effects + rest.effects, rest.status)
      else if t.status.Failed? then
        t
      else
        Transition(t.state, t.effects + [Complete], t.status)
  }

  /** A run's outcome with `fx` performed before it. */
  function Prepend(fx: seq<Effect>, r: Transition): (whole: Transition) {
    Transition(r.state, fx + r.effects, r.status)
  }

  /**
   * One iteration of a run that is under way: `whole` is what the run
   * started earlier will produce, `trace` what it has done so far and `s`
   * the state before batch `i`.
   */
  lemma RunAdvance(cfg: Config, s: TrainingState, batches: seq<Batch>, i: int,
                   trace: seq<Effect>, whole: Transition)
    requires 0 <= i < |batches|
    requires whole == Prepend(trace, Run(cfg, s, batches[i..]))
    ensures var t := Step(cfg, s, batches[i]);
      && (t.status == Running ==> whole == Prepend(trace + t.effects, Run(cfg, t.state, batches[i + 1..])))
      && (t.status.Failed? ==> whole == Transition(t.state, trace + t.effects, t.status))
      && (t.status == EarlyStopped || t.status == Finished ==>
            whole == Transition(t.state, trace + t.effects + [Complete], t.status))
  {
    var t := Step(cfg, s, batches[i]);
    assert batches[i..][0] == batches[i] && batches[i..][1..] == batches[i + 1..];
    if t.status == Running {
      var rest := Run(cfg, t.state, batches[i + 1..]);
      assert trace + (t.effects + rest.effects) == trace + t.effects + rest.effects;
    } else if !t.status.Failed? {
      assert trace + (t.effects + [Complete]) == trace + t.effects + [Complete];
    }
  }

  /** A run that has consumed every batch is still waiting for the next one. */
  lemma RunExhausted(cfg: Config, s: TrainingState, batches: seq<Batch>, trace: seq<Effect>, whole: Transition)
    requires whole == Prepend(trace, Run(cfg, s, batches[|batches|..]))
    ensures whole == Transition(s, trace, Running)
  {
    assert batches[|batches|..] == [];
    assert trace + [] == trace;
  }
}
