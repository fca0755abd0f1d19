# Trainer control logic of crop-type-mapping, in Dafny

The repository trains an early-classification sequence model in two phases: first a
*classification* phase, then an *earliness* phase in which the model is rewarded for deciding
from fewer time steps. `utils/trainer.py` holds the `Trainer` that drives this. This project
models the trainer's control logic and leaves out the tensor arithmetic:

- how the current phase follows from the epoch counter (`get_phase`);
- which of the model's five loss functions a step calls, or whether it raises
  (`loss_criterion`);
- the epoch loop of `fit`. This covers `new_epoch`, `check_events` and its four event
  handlers, `snapshot` and `resume`, the checkpoint file names, the test cadence and what
  reaches the logger.

Layout:

- `phases.dfy` (`Phases`): the phase names and `PhaseAt`.
- `checkpoints.dfy` (`Checkpoints`): POSIX `os.path.join` and the two checkpoint paths.
- `loss.dfy` (`Loss`): the loss-mode dispatch as a datatype-valued function.
- `schedule.dfy` (`Schedule`): the trainer's observable state as a value (`Run`), and one
  function per step of a run: events fired, checkpoints written, passes run, a loop iteration,
  the whole of `fit` (`FitSpec`).
- `trainer.dfy` (`Training`): the `Trainer` class (mutable epoch counter and logger data, a
  `Disk` of checkpoint files, ghost records of events, writes and passes). Each step of the
  loop and each handler is proved to change the state exactly as its `Schedule` function says.
  The constructor and `Resume` state their effect directly; `Snapshot` is proved equal to
  `Schedule.TakeSnapshot`.
- `Config` carries the constructor's defaults (4 epochs, switch at 2, a test every epoch,
  `twophase_linear_loss`, factors 0.7 and 0.3, store `/tmp`), and `overwrite` defaults to true.
- `run_properties.dfy`, `event_properties.dfy`, `pass_properties.dfy`,
  `resume_properties.dfy`: what a whole run does, proved from `FitSpec`.
- `scenarios.dfy`: a worked example run, a run of the default configuration, a
  snapshot-then-resume round trip, and a client that resumes from what a finished run left
  behind.

External effects become state:

- The four phase notifications (trainer.py lines 170, 173, 177, 180) become the `events`
  record.
- `model.save`/`model.load` become the `Disk` map from path to `Snapshot` (epoch and logger
  data).
- A train or test pass becomes one step recorded in `passes`, with the loss it dispatched to.
- `logger.log` becomes appending the epoch to `loggedData`.

Exceptions become a `FitOutcome`:

- `ValueError` for an unknown loss mode.
- `ZeroDivisionError` for a test cadence of 0. Python's `%` is modelled as floored modulo
  (`PyMod`).

Behaviour of the code worth knowing:

- Resuming re-fires events. The constructor resumes from the classification checkpoint
  (trainer.py lines 49-51, 57). The first `check_events` of `fit` then runs at the restored
  epoch (lines 109, 145). A classification checkpoint stores `epoch == switch_epoch`, so a
  resumed run fires "ending classification" again and rewrites that checkpoint
  (`ResumedAtSwitchEvents`, `ResumeAfterFreshRun`).
- Nothing in the code requires `switch_epoch <= epochs`. The model accepts any integers.
- The `ValueError` message lists four accepted modes and omits `loss_cross_entropy`, which the
  code accepts. The comment on the `loss_mode` parameter names a mode
  `twophase_early_simple`, which the code rejects. Only the behaviour is modelled.

The counter is advanced before each pass. So the pass at epoch `e` uses the phase of `e`:

- Under a two-phase mode, only epochs `1 .. switch_epoch - 1` train with cross-entropy
  (`TwoPhasePassLoss`).
- The pass at `switch_epoch` already uses the early loss.
- The classification checkpoint is written by the check that follows that pass.

## Model

| member | source | states |
|---|---|---|
| `Phases.PhaseAt` | utils/trainer.py:148-152 | the phase is classification exactly when epoch < switch_epoch and earliness exactly when epoch >= switch_epoch |
| `Checkpoints.Join` | utils/trainer.py:163-167 | `os.path.join` of two components: an absolute name is the result; otherwise the directory is a prefix and the name a suffix, with exactly one separator inserted when the directory lacks a trailing one and none added when it is empty or has one |
| `Checkpoints.ModelName` | utils/trainer.py:163-167 | a checkpoint path lies under the store and ends with `model_<phase>.pth` |
| `Checkpoints.ModelNamesDistinct` | utils/trainer.py:163-167 | the classification and earliness checkpoints are different files for every store |
| `Checkpoints.ModelNamesUnderStore` | utils/trainer.py:163-167 | for a store without trailing slash the paths are `<store>/model_classification.pth` and `<store>/model_earliness.pth` |
| `Checkpoints.ModelNamesUnderSlashedStore` | utils/trainer.py:163-167 | for an empty store or one ending in a slash the paths are `<store>model_classification.pth` and `<store>model_earliness.pth`, with no separator added |
| `Checkpoints.ClassificationModelName` | utils/trainer.py:163-164 | no contract of its own: `ModelNamesUnderStore` gives its value and `ModelNamesDistinct` separates it from the earliness path |
| `Checkpoints.EarlinessModelName` | utils/trainer.py:166-167 | no contract of its own: `ModelNamesUnderStore` gives its value and `ModelNamesDistinct` separates it from the classification path |
| `Loss.LossCriterion` | utils/trainer.py:68-103 | `None` epoch selects cross-entropy for every mode; ValueError exactly for a given epoch and an unknown mode; no branch falls through to `None`; early_reward and loss_cross_entropy ignore the phase; each two-phase mode selects cross-entropy exactly in the classification phase |
| `Loss.TwoPhaseEarlinessLosses` | utils/trainer.py:80-99 | in the earliness phase the three two-phase modes select early_loss_simple(alpha), early_loss_linear(alpha, entropy) and early_loss_cross_entropy(alpha, entropy) |
| `Loss.EpochArgumentValueIgnored` | utils/trainer.py:68-103 | the value of the epoch argument never matters, only whether it is `None`; the phase comes from the trainer's counter |
| `Schedule.PyMod` | utils/trainer.py:115 | Python's `%`: result has the divisor's sign and is zero exactly when the divisor divides the dividend |
| `Schedule.FiredAt` | utils/trainer.py:154-161 | one check runs exactly one branch or none, each of its handlers once: start alone, exactly at 0; end of classification then start of earliness, exactly at a non-zero switch epoch; end of earliness alone, exactly at a budget that is neither 0 nor the switch; nothing at any other epoch |
| `Schedule.HandleAll` | utils/trainer.py:169-181 | running handlers appends their notifications and leaves the counter, logger data and passes alone |
| `Schedule.TakeSnapshot` | utils/trainer.py:61-66 | no contract of its own: `Training.Trainer.Snapshot` is proved to change the state exactly as it says, and `Schedule.Handle` states what it stores |
| `Schedule.Handle` | utils/trainer.py:169-181 | a handler appends its own notification; the two start handlers change no file and write nothing; the two end handlers store the current epoch and logger data under their checkpoint, leave every other file as it was, and append exactly that write; the counter, logger data and passes stay as they were |
| `Schedule.IterationSpec` | utils/trainer.py:108-119 | every loop iteration advances the counter by exactly one |
| `Schedule.CheckEventsSpec` | utils/trainer.py:154-161 | a check appends exactly the events due at the current epoch and leaves the counter, logger data and passes alone |
| `Schedule.NewEpochSpec` | utils/trainer.py:144-146 | a new epoch fires the events due at the old counter, then advances the counter by one, with logger data and passes unchanged |
| `Schedule.PassSpec` | utils/trainer.py:183-245 | a pass raises nothing exactly when the loss mode is known; otherwise it raises ValueError and changes nothing; when it succeeds it records one pass of its kind at the current epoch with the loss dispatched there |
| `Schedule.FitSpec` | utils/trainer.py:105-142 | no contract of its own: `RunProperties.FitCompletes`, `FitEvents`, `FitWrites`, `FitPasses` and `FitLogged` give its closed form; `ResumeProperties.FitRaisesOnUnknownMode`, `FitRaisesOnZeroCadence` and `FitWithoutIterations` give its other endings |
| `Training.Trainer.constructor` | utils/trainer.py:28-51 | a new trainer starts at epoch 0 with empty logger data, unless the classification checkpoint exists and overwrite is off, in which case it takes epoch and logger data from that checkpoint |
| `Training.ResumesFrom` | utils/trainer.py:49-51 | no contract of its own: `Training.Trainer.constructor` states what a trainer starts from when it holds and when it does not |
| `Training.Trainer.Resume` | utils/trainer.py:53-59 | restores exactly the epoch and logger data stored in the checkpoint |
| `Training.Trainer.Snapshot` | utils/trainer.py:61-66 | stores the current epoch and logger data under the path and records the write |
| `Training.Trainer.StartingPhaseClassificationEvent` | utils/trainer.py:169-170 | records the notification only |
| `Training.Trainer.EndingPhaseClassificationEvent` | utils/trainer.py:172-174 | records the notification and snapshots to the classification checkpoint |
| `Training.Trainer.StartingPhaseEarlinessEvent` | utils/trainer.py:176-177 | records the notification only |
| `Training.Trainer.EndingPhaseEarlinessEvent` | utils/trainer.py:179-181 | records the notification and snapshots to the earliness checkpoint |
| `Training.Trainer.CheckEvents` | utils/trainer.py:154-161 | the state afterwards is the one the `elif` chain's handlers produce |
| `Training.Trainer.NewEpoch` | utils/trainer.py:144-146 | events are checked at the old counter, then the counter is incremented |
| `Training.Trainer.TrainEpoch` | utils/trainer.py:183-209 | the pass is recorded with the loss dispatched at the current epoch, or ValueError is raised for an unknown mode |
| `Training.Trainer.TestEpoch` | utils/trainer.py:211-245 | as TrainEpoch, for the test pass |
| `Training.Trainer.Fit` | utils/trainer.py:105-142 | the state and outcome after the loop and the final check are those of `FitSpec` |
| `RunProperties.HandleAllSlots` | utils/trainer.py:169-181 | the handlers write exactly the checkpoints their events call for, each storing the current epoch |
| `RunProperties.CheckEventsClassificationSlot` | utils/trainer.py:154-174 | a check at a non-zero switch epoch leaves the classification checkpoint storing that epoch; a check at any other epoch leaves that checkpoint untouched |
| `RunProperties.IterationAdvances` | utils/trainer.py:108-119 | with a known mode and non-zero cadence an iteration raises nothing and advances the counter by one |
| `RunProperties.IterationEvents` | utils/trainer.py:144-146 | an iteration fires the events due at the old counter and writes the checkpoints they call for |
| `RunProperties.IterationPassesStep` | utils/trainer.py:111-119 | an iteration runs a train pass at the new counter, and a test pass plus a log entry exactly when it is a test epoch |
| `RunProperties.FitCompletes` | utils/trainer.py:108-141 | from any start, a run with a known mode and non-zero cadence completes with the counter at max(start, epochs) |
| `RunProperties.FitEvents` | utils/trainer.py:105-161 | the events of a run are those of the checks at start .. end-1 followed by the final check at end |
| `RunProperties.FitWrites` | utils/trainer.py:154-181 | the checkpoint writes of a run are exactly those its events call for, in order, each storing the epoch of its event |
| `RunProperties.FitPasses` | utils/trainer.py:108-119 | the passes of a run are, for each epoch start+1 .. end in order, a train pass and, on a test epoch, a test pass |
| `RunProperties.FitLogged` | utils/trainer.py:115-118 | the logger receives exactly the test epochs among start+1 .. end, in order, appended to what it held |
| `EventProperties.FreshRunEvents` | utils/trainer.py:154-181 | fresh run with 0 < switch < epochs: events are start@0, end-classification@switch, start-earliness@switch, end-earliness@epochs; exactly two writes, classification storing switch then earliness storing epochs |
| `EventProperties.SwitchAtBudgetEvents` | utils/trainer.py:154-161 | with switch == epochs > 0 the earliness checkpoint is never written |
| `EventProperties.SwitchAtStartEvents` | utils/trainer.py:154-161 | with switch == 0 < epochs the start has priority: the classification checkpoint is never written, only the earliness one |
| `EventProperties.ResumedAtSwitchEvents` | utils/trainer.py:154-174 | a run resumed at the switch epoch fires end-classification again and rewrites that checkpoint, then start-earliness and end-earliness |
| `EventProperties.NoStartAfterResume` | utils/trainer.py:154-156 | a run starting past epoch 0 never announces the start of classification |
| `PassProperties.PassCadence` | utils/trainer.py:108-119 | train passes run at every epoch start+1 .. end exactly once, in order; test passes exactly at the test epochs among them |
| `PassProperties.TestEpochsExactly` | utils/trainer.py:115 | an epoch is tested (and logged) exactly when it lies in start+1 .. end and the cadence divides it (`e % n == 0` for positive n) |
| `PassProperties.PassesUseDispatchedLoss` | utils/trainer.py:112-117 | every pass uses the loss dispatched at its own epoch |
| `PassProperties.TwoPhasePassLoss` | utils/trainer.py:109-112 | under a two-phase mode a pass uses cross-entropy exactly when its epoch is below the switch epoch |
| `ResumeProperties.ClassificationSlotAfterRun` | utils/trainer.py:154-174 | a run that starts at or before a non-zero switch epoch within the budget (or resumes past it with that checkpoint in place) ends with the classification checkpoint storing the switch epoch |
| `ResumeProperties.FitRaisesOnUnknownMode` | utils/trainer.py:101-103 | with an unknown mode and something to train, fit raises ValueError in the first train pass, after the counter moved and before any pass is recorded |
| `ResumeProperties.FitRaisesOnZeroCadence` | utils/trainer.py:115 | with a zero cadence fit runs one train pass and then raises ZeroDivisionError |
| `ResumeProperties.FitWithoutIterations` | utils/trainer.py:108-142 | at or past the budget, fit only checks events once and never notices a bad mode or cadence |
| `Scenarios.ExampleRunEvents` | utils/trainer.py:154-181 | epochs 4, switch 2: the four events in order and the two checkpoint writes |
| `Scenarios.FreshRunWrites` | utils/trainer.py:154-181 | any fresh run with a known loss mode, non-zero cadence and 0 < switch_epoch < epochs completes and writes exactly two checkpoints: classification storing switch_epoch, then earliness storing epochs |
| `Scenarios.ExampleRunPasses` | utils/trainer.py:108-119 | epochs 4, cadence 2: train passes at 1, 2, 3, 4; test passes and log entries at 2 and 4 |
| `Scenarios.ExampleRunLosses` | utils/trainer.py:88-92 | two-phase linear loss, switch 2: cross-entropy only at epoch 1, early_loss_linear with the configured factors from epoch 2 on |
| `Scenarios.ResumeAfterFreshRun` | utils/trainer.py:47-57 | after a completed fresh run, a trainer with overwrite off resumes at the switch epoch; its run re-fires end-classification, then start- and end-earliness |
| `Scenarios.SnapshotThenResume` | utils/trainer.py:53-66 | resuming from a checkpoint just saved restores the epoch counter and the logged data exactly, and the checkpoint holds them |
| `Scenarios.DefaultConfigRun` | utils/trainer.py:15-25 | with every constructor default, a fresh run completes at epoch 4, fires start@0, end-classification@2, start-earliness@2, end-earliness@4, and writes the classification checkpoint at 2 and the earliness one at 4 |

## Left out

- Tensors, `loss.backward()`, the Adam optimizer and its state dict, and CUDA device moves.
  These are floating-point work done by foreign libraries. The optimizer state is not part of
  a `Snapshot`.
- The per-batch bodies of `train_epoch` and `test_epoch`: predictions, majority-vote targets,
  the confusion matrix and the returned statistics. Each pass is one step that dispatches the
  loss once. The model assumes a non-empty data loader. With an empty loader the source
  returns an unbound `stats` and raises, and that path is not modelled.
- `ClassMetric`, `Logger`, `Printer` and `VisdomLogger` are not part of this model.
  The logger is reduced to the list of epochs passed to `logger.log`. `logger.set_mode` is
  not modelled. `logger.resume` is taken to restore the stored data exactly.
- The visualisation block in `fit` (trainer.py lines 121-139: plots, confusion matrix,
  `n_samples`). It is plotting I/O, and the model takes it to complete. As written it does
  not always complete, after the first train pass:
  - With the default `visdomenv=None`, `self.visdom` is never assigned (lines 44-45), so line
    121 raises `AttributeError`.
  - On an epoch without a test pass, `stats` comes from `train_epoch` and has no
    `"confusion_matrix"` key (only line 237 adds it), so line 121 raises `KeyError`.
  `RunProperties.FitCompletes`, `Scenarios.ExampleRunPasses` and `Scenarios.DefaultConfigRun`
  therefore describe the control logic with this block taken to complete.
- The `learning_rate`, `show_n_samples` and `visdomenv` constructor parameters. They only
  feed the optimizer and the visualisation block.
- A checkpoint that exists but cannot be loaded is not modelled: `model.load` raising on a
  malformed or foreign file (trainer.py line 54), or a stored dict missing `epoch`,
  `optimizer_state_dict` or `logged_data` (lines 57-59). Every file on the `Disk` is a
  well-formed `Snapshot`, so the constructor's resume never fails.
- `Training.Trainer.Fit` does not return the logger's data. That data is the trainer's
  `loggedData` field after the call.
- `Checkpoints.Join` models POSIX `os.path.join` only, not the Windows variant.
- Printed output other than the four phase notifications: the constructor's "Resuming from
  snapshot" message (trainer.py line 50) and the `Printer` output of `fit` (lines 113, 119).
  The text of the phase notifications is not modelled either, only which one fired and when.
