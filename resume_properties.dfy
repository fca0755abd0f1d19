/** What a run leaves in the checkpoint store for a later trainer to resume from, and how a run
    ends when it raises. */
module ResumeProperties {
  import opened Checkpoints
  import opened Schedule
  import opened RunProperties

  /** A run that has yet to reach a non-zero switch epoch, or has passed it with the classification
      checkpoint storing it, ends with the classification checkpoint storing the switch epoch:
      the only write to that slot happens at the switch and stores the counter then. */
  lemma {:induction false} ClassificationSlotAfterRun(cfg: Config, r: Run)
    requires Runnable(cfg) && cfg.switchEpoch != 0
    requires || r.epoch <= cfg.switchEpoch <= cfg.epochs
             || (cfg.switchEpoch < r.epoch && ClassificationModelName(cfg.store) in r.files &&
                 r.files[ClassificationModelName(cfg.store)].epoch == cfg.switchEpoch)
    ensures ClassificationModelName(cfg.store) in FitSpec(cfg, r).0.files
    ensures FitSpec(cfg, r).0.files[ClassificationModelName(cfg.store)].epoch == cfg.switchEpoch
    decreases cfg.epochs - r.epoch
  {
    CheckEventsClassificationSlot(cfg, r);
    if r.epoch < cfg.epochs {
      IterationAdvances(cfg, r);
      IterationEvents(cfg, r);
      FitUnfold(cfg, r);
      ClassificationSlotAfterRun(cfg, IterationSpec(cfg, r).0);
    }
  }

  /** A run that raises stops in the first iteration. With an unknown loss mode the train pass
      raises `ValueError` before it is recorded; the counter has already moved. */
  lemma FitRaisesOnUnknownMode(cfg: Config, r: Run)
    requires r.epoch < cfg.epochs && cfg.lossMode !in Loss.LossModes
    ensures FitSpec(cfg, r).1 == Raised(ValueError)
    ensures FitSpec(cfg, r).0.epoch == r.epoch + 1
    ensures FitSpec(cfg, r).0.events == r.events + FiredAt(cfg, r.epoch)
    ensures FitSpec(cfg, r).0.passes == r.passes && FitSpec(cfg, r).0.loggedData == r.loggedData
  {
  }

  /** With a known loss mode and a test cadence of 0, the first train pass runs and then the
      test-epoch check raises `ZeroDivisionError`. */
  lemma FitRaisesOnZeroCadence(cfg: Config, r: Run)
    requires r.epoch < cfg.epochs && cfg.lossMode in Loss.LossModes && cfg.testEveryNEpochs == 0
    ensures FitSpec(cfg, r).1 == Raised(ZeroDivisionError)
    ensures FitSpec(cfg, r).0.epoch == r.epoch + 1
    ensures FitSpec(cfg, r).0.passes == r.passes + [Pass(TrainPass, r.epoch + 1, DispatchedCall(cfg, r.epoch + 1))]
    ensures FitSpec(cfg, r).0.loggedData == r.loggedData
  {
  }

  /** A trainer already at (or past) its budget trains nothing and only checks the events once,
      so neither an unknown loss mode nor a zero cadence is noticed. */
  lemma FitWithoutIterations(cfg: Config, r: Run)
    requires cfg.epochs <= r.epoch
    ensures FitSpec(cfg, r).1 == Completed
    ensures FitSpec(cfg, r).0.epoch == r.epoch
    ensures FitSpec(cfg, r).0.events == r.events + FiredAt(cfg, r.epoch)
    ensures FitSpec(cfg, r).0.passes == r.passes && FitSpec(cfg, r).0.loggedData == r.loggedData
  {
  }
}
