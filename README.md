# Training driver control loop

A model of the control state machine of the speech-recognition training
driver `main()` in `src/bin/training/train.py`: the fresh or restored
training state, the `while True` loop that trains one batch at a time and
reports every `print_step` steps, and the epoch-boundary procedure. That
procedure checkpoints warm-up epochs, dispatches the dev evaluation on the
label type, keeps track of the best dev error rate and of the epochs
without improvement, stops early, consults the learning-rate controller,
converts the optimizer to SGD once, ends at the last epoch and writes the
`COMPLETE` marker.

The project has five modules:

- `Labels` (`labels.dfy`): the substring test behind `'character' in
  label_type`, and the label-type dispatch that decides whether the dev
  evaluation binds `metric_dev`.
- `Schedule` (`schedule.dfy`): the specification as pure functions. It
  holds the state the loop carries, one batch (`Accumulate`), the
  epoch-boundary procedure (`EpochEnd`, built from `Score`, `Reschedule`
  and `Advance`), one iteration (`Step`) and a run over a finite sequence
  of batches (`Run`). Every externally visible action is an `Effect`:
  reports, epoch summaries, checkpoints, dev and held-out evaluations, the
  SGD switch and the completion marker.
- `Boundary` (`boundary.dfy`): what one epoch boundary does, case by case.
- `Driver` (`trainer.dfy`): class `Trainer`, whose fields are the loop
  variables and whose methods update them in place. Each method is proved
  to produce exactly the state and actions that `Schedule` specifies. A
  ghost `log` records the actions.
- `Properties` (`properties.dfy`): properties of whole runs, proved by
  induction over the batches, and two example runs: a warm-up followed by
  an improvement, and patience running out.

The learning-rate controller (`Controller.decay_lr`) is not part of this
model. It appears as the configured policy `decay`, which maps the
controller's memory and one observation (rate, epoch, dev metric) to the
new rate. The memory is the rate and best score the controller was built
from, plus every observation it has been given. The evaluators, the
update step and the data loader are not part of this model either. Each
batch carries the numbers they would return: training loss and accuracy,
dev-batch loss and accuracy, the new-epoch flag, and the dev error rate
at an epoch boundary.

Four behaviours of the code that the model keeps as written:

- `step` is advanced by `ngpus`, whose default is 0 (line 38), so `step`
  is not strictly increasing. With zero GPUs it never moves. It decreases
  with the negative GPU count that the option's help text allows.
- The phone branch of the dev evaluation stores its result in
  `per_dev_epoch`, so `metric_dev` is read unbound at line 390. The model
  turns that path into a failure instead of a comparison.
- With more than one GPU, `step` moves in strides of `ngpus`, and a fresh
  run starts it at 0. When the print interval left by `//=` at line 93
  is still a multiple of `ngpus`, `step + 1` is never a multiple of it, so
  the report at line 310 never fires. For example, `print_step: 200` on
  two GPUs gives an interval of 100 that the odd `step + 1` never hits
  (`Properties.StrideSkipsReports`, `Properties.TwoGpusNeverReport`).
- The loop has no check for a non-finite training loss.

## Model

| member | source | states |
|---|---|---|
| Labels.Contains | src/bin/training/train.py:369 | the `in` test on strings: true exactly when the pattern occurs at some position of the label type |
| Labels.DevMetric | src/bin/training/train.py:360-388 | `'word'` matched exactly or `'character'` as a substring gives the measured metric; otherwise a `'phone'` substring leaves it unbound; anything else is rejected |
| Labels.DispatchExamples | src/bin/training/train.py:360-388 | `word` and `character...` label types are measured, `phone61` leaves the metric unbound, `words` and `kanji` raise |
| Schedule.Initial | src/bin/training/train.py:219-221 | a fresh run starts at epoch 1, step 0, the configured learning rate and best score 100, with a counter of zero and a controller built from these values |
| Schedule.Restored | src/bin/training/train.py:243 | a restart takes epoch, step, learning rate and best score exactly from the checkpoint (the snapshot round-trips) and builds the controller from them; everything else is as in a fresh run |
| Schedule.EffectivePrintStepFloors | src/bin/training/train.py:91-93 | with more than one GPU the print interval is the floor of `print_step / ngpus`; otherwise it is unchanged |
| Schedule.Accumulate | src/bin/training/train.py:305-341 | only the step and the sums change; the step advances by exactly `ngpus`; when `(step+1) % print_step == 0` the report carries the sums divided by `print_step` and the sums are reset; otherwise the batch is added to the sums; a zero interval fails |
| Schedule.Advance | src/bin/training/train.py:481-486 | the loop finishes at `num_epoch`, otherwise the epoch grows by exactly one |
| Schedule.EpochEnd | src/bin/training/train.py:344-486 | a boundary keeps the step and sums, never raises the best score, logs the epoch summary first, and moves to the next epoch exactly when the loop goes on |
| Schedule.Step | src/bin/training/train.py:302-486 | one iteration never raises the best score and moves the epoch by at most one; a batch that ends no epoch writes no checkpoint and can only fail on a zero interval |
| Schedule.RunAdvance | src/bin/training/train.py:302-486 | a run under way continues, fails or writes the completion marker according to the iteration it is at |
| Schedule.RunExhausted | src/bin/training/train.py:302 | a run that has used every batch is still waiting for the next one |
| Boundary.WarmUpBoundary | src/bin/training/train.py:352-356 | before `eval_start_epoch` the boundary writes the epoch summary and a checkpoint of the current epoch, step, rate and best, evaluates nothing and changes nothing but the epoch |
| Boundary.UnmeasuredBoundary | src/bin/training/train.py:378-390 | a label type without a dev metric fails after the summary (unbound metric for phone types, rejection otherwise) and leaves the state untouched |
| Boundary.ImprovedBoundary | src/bin/training/train.py:390-430 | a strict improvement makes the metric the best, resets the counter, and logs the dev evaluation, then a checkpoint carrying the new best, then the held-out evaluation, in that order |
| Boundary.StagnantBoundary | src/bin/training/train.py:431-432 | any other metric, ties included, keeps the best, adds exactly one to the counter and writes no checkpoint |
| Boundary.EarlyStopBoundary | src/bin/training/train.py:437-439 | the run stops early exactly when an evaluated epoch leaves the counter at the patience; the epoch, rate, optimizer and noise flag then stay as they were and no SGD switch happens |
| Boundary.DecayBoundary | src/bin/training/train.py:449-453 | an evaluated epoch that goes on hands the rate, epoch and metric to the controller and takes its answer as the new rate; an early stop never reaches the controller |
| Boundary.SgdBoundary | src/bin/training/train.py:463-477 | the switch to SGD happens exactly on an evaluated, not early-stopped epoch equal to `convert_to_sgd_epoch`; it uses the decayed rate, sets the optimizer to `sgd`, and raises the noise flag only when `weight_noise_std > 0` |
| Boundary.AdvanceBoundary | src/bin/training/train.py:481-486 | the boundary finishes exactly at `num_epoch` when it neither failed nor stopped early; otherwise a continuing loop is one epoch further on |
| Driver.Trainer.Fresh | src/bin/training/train.py:219-221 | the fields hold the fresh-run state, the log is empty and the marker is not written |
| Driver.Trainer.Resume | src/bin/training/train.py:243 | the fields hold the state restored from the checkpoint |
| Driver.Trainer.TrainBatch | src/bin/training/train.py:305-341 | updates the fields and logs the report exactly as `Accumulate` specifies |
| Driver.Trainer.UpdateBest | src/bin/training/train.py:390-432 | updates the best score and the counter, and logs evaluations and the checkpoint, as `Score` specifies |
| Driver.Trainer.AdjustSchedule | src/bin/training/train.py:437-477 | stops early, or decays the rate and converts to SGD, as `Reschedule` specifies |
| Driver.Trainer.EpochBoundary | src/bin/training/train.py:344-486 | runs the boundary procedure in place, producing exactly the state, actions and outcome of `EpochEnd` |
| Driver.Trainer.Iterate | src/bin/training/train.py:302-486 | one loop iteration in place, equal to `Step` |
| Driver.Trainer.Train | src/bin/training/train.py:299-497 | the loop in place produces exactly the state, actions and outcome of `Run`; the completion marker is written exactly when the loop was left by early stop or by the last epoch |
| Properties.BestNeverIncreases | src/bin/training/train.py:390-392 | the best dev score at the end of a run is never above the one it started with |
| Properties.EpochBounds | src/bin/training/train.py:481-486 | the epoch never goes back and grows by at most one per batch |
| Properties.StepMonotone | src/bin/training/train.py:341 | with a non-negative GPU count the step never decreases; with zero GPUs it never moves |
| Properties.CompleteIffStopped | src/bin/training/train.py:495-497 | the completion marker is logged exactly when the run stopped early or finished, and then only once, as the last action |
| Properties.ReplayAppend | src/bin/training/train.py:390-432 | replaying the counter over two stretches of the log is replaying it over each in turn |
| Properties.ScoreReplays | src/bin/training/train.py:390-432 | the bookkeeping of one scored epoch leaves the counter at what replaying its dev evaluation gives |
| Properties.EpochEndReplays | src/bin/training/train.py:344-439 | after one boundary the counter is what replaying that boundary's dev evaluations gives |
| Properties.StepReplays | src/bin/training/train.py:302-486 | after one iteration the counter is what replaying that iteration's dev evaluations gives |
| Properties.NotImprovedCountsMisses | src/bin/training/train.py:390-432 | the counter at the end of a run equals the number of dev evaluations without improvement since the last strict improvement, replayed from the log |
| Properties.EvaluationsAppend | src/bin/training/train.py:344-486 | the dev evaluations of two stretches of the log add up |
| Properties.EpochEndConsults | src/bin/training/train.py:437-453 | one boundary consults the controller exactly when it scores the epoch and does not stop early |
| Properties.StepConsults | src/bin/training/train.py:437-453 | one iteration consults the controller once per scored epoch that does not stop early |
| Properties.ControllerConsultedPerScoredEpoch | src/bin/training/train.py:437-453 | over a run, the controller is consulted once for every dev evaluation, except the one that stops the run early |
| Properties.JustifiedAppend | src/bin/training/train.py:352-398 | joining two stretches of the log in which each checkpoint is justified keeps every checkpoint justified |
| Properties.EpochEndJustified | src/bin/training/train.py:344-398 | every checkpoint of one boundary is justified |
| Properties.StepJustified | src/bin/training/train.py:344-398 | every checkpoint of one iteration is justified |
| Properties.CheckpointsOnlyAtWarmUpOrImprovement | src/bin/training/train.py:352-398 | every checkpoint of a run directly follows either the summary of a warm-up epoch, storing that epoch, or a strictly improving dev evaluation, storing its metric as the best |
| Properties.SwitchesAppend | src/bin/training/train.py:463-477 | the SGD switches of two stretches of the log add up |
| Properties.SwitchesCount | src/bin/training/train.py:463-477 | the count of switches is positive exactly when some action is a switch |
| Properties.EpochEndSwitches | src/bin/training/train.py:463-477 | one boundary switches at most once, and only at the conversion epoch |
| Properties.StepSwitches | src/bin/training/train.py:463-486 | one iteration switches at most once, only at the conversion epoch, and a loop that goes on is then past that epoch |
| Properties.NoSwitchAfterConversion | src/bin/training/train.py:463 | once the epoch is past `convert_to_sgd_epoch` no later boundary converts again, so a restart past that epoch does not repeat the switch |
| Properties.SwitchesAtMostOnce | src/bin/training/train.py:463-477 | a run converts the optimizer to SGD at most once |
| Properties.ReportsAppend | src/bin/training/train.py:310-317 | the absence of reports, and reports made at a single step, survive joining two stretches of the log |
| Properties.EpochEndSilent | src/bin/training/train.py:344-486 | the boundary procedure itself never reports |
| Properties.FrozenStepReports | src/bin/training/train.py:310-341 | with zero GPUs every report of a run is made at the starting step, and none is made when none is due there |
| Properties.NotOneBelow | src/bin/training/train.py:310 | a multiple of the GPU count plus one is never a multiple of an interval that the GPU count divides |
| Properties.StrideSkipsReports | src/bin/training/train.py:310-341 | with several GPUs, a starting step that is a multiple of the GPU count and a print interval that the GPU count divides, the run never reports |
| Properties.TwoGpusNeverReport | src/bin/training/train.py:91-93 | a fresh run on two GPUs with `print_step: 200` never reports |
| Properties.ReplayQuiet | src/bin/training/train.py:390-432 | actions other than dev evaluations leave the replayed counter alone |
| Properties.EvaluationsQuiet | src/bin/training/train.py:344-486 | a stretch of the log without dev evaluations counts none |
| Properties.UnmeasurableLabelNeverScores | src/bin/training/train.py:378-390 | with a label type that yields no dev metric, no epoch is scored, the run never stops early, and it can only finish if the last epoch comes before evaluation starts |
| Properties.WarmUpThenImprove | src/bin/training/train.py:352-398 | with evaluation starting at epoch 3, a fresh run checkpoints epochs 1 and 2 without evaluating; then a dev error rate of 20 at epoch 3 becomes the best, resets the counter, is checkpointed and triggers the held-out evaluation |
| Properties.PatienceRunsOut | src/bin/training/train.py:390-439 | with patience 2 and a best of 15, dev error rates of 16 and then 17 stop the run after the second epoch, with the counter at 2, the best unchanged, no checkpoint, a single decay and the completion marker last |

## Left out

- Argument parsing, the decode-length table, config loading and saving, dataset construction, model and RNNLM loading, and `setproctitle` (lines 37-217, 246-295) are setup plumbing over files and external modules. The reduction of `batch_size` for several GPUs is left out for the same reason; only the print-interval adjustment affects control flow.
- `train_set.epoch = epoch - 1` (line 255): the data loader is not part of this model. Batches arrive as a finite sequence that carries the new-epoch flag.
- Driver.Trainer.Train: the source loop ends by one of its two `break`s (lines 439, 482) or by an exception (lines 310, 388, 390). The model runs over a finite prefix of the loader's batches. A prefix that runs out leaves status `Running` and writes no marker.
- The dev and held-out evaluators, the update step (forward and backward pass) and the dev-batch evaluation at a report are not part of this model. Their results are fields of the batch. The held-out evaluation is the single action `HeldOutEvaluated`.
- Controller.decay_lr is not part of this model. It is the configured function of the controller's memory and the new observation. The optimizer object that `decay_lr` returns is not modelled, only its tag. Determinism for identical prior state and inputs holds because `decay` is a function.
- Checkpoint files: `save_checkpoint` and `load_checkpoint` are not part of this model. A checkpoint is the action carrying the four scalars. A restart takes them back exactly (`Schedule.Restored`).
- Weight-noise injection starts off. Its initial value is set in model code that is not part of this model. Only the driver's switch to `true` is modelled.
- Floating point: losses, accuracies, rates and metrics are reals. The model claims nothing about rounding or non-finite values.
- Logging, timing, tqdm progress bars, tensorboard histograms and the reporter's plots are output only. A report and an epoch summary are actions in the log.
- GPU parallelism (`CustomDataParallel`) is only visible through the step stride and the print interval, and those are modelled.
- Python's `%` takes the sign of the divisor, while Dafny's is Euclidean. The model uses `%` only for the test `(step + 1) % print_step == 0`, which the two agree on for every non-zero interval.
