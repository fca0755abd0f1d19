/** Whole runs of concrete configurations, and a run resumed from what an earlier one left. */
module Scenarios {
  import opened Loss
  import opened Checkpoints
  import opened Schedule
  import opened RunProperties
  import opened EventProperties
  import opened PassProperties
  import opened ResumeProperties
  import opened Training

  /** The fresh state of a trainer that does not resume. */
  function FreshRun(files: map<string, Snapshot>): Run {
    Run(0, [], files, [], [], [])
  }

  lemma TestEpochsOfFour(cfg: Config)
    requires cfg.testEveryNEpochs == 2
    ensures TestEpochsBetween(cfg, 0, 4) == [2, 4]
  {
    assert PyMod(1, 2) == 1 && PyMod(2, 2) == 0 && PyMod(3, 2) == 1 && PyMod(4, 2) == 0;
    assert TestEpochsBetween(cfg, 4, 4) == [];
    assert TestEpochsBetween(cfg, 3, 4) == [4];
    assert TestEpochsBetween(cfg, 2, 4) == [4];
    assert TestEpochsBetween(cfg, 1, 4) == [2, 4];
  }

  /** The configuration of the worked example: four epochs, switch at 2, test every second epoch,
      two-phase linear loss. */
  predicate ExampleConfig(cfg: Config) {
    cfg.epochs == 4 && cfg.switchEpoch == 2 && cfg.testEveryNEpochs == 2 && cfg.lossMode == TwoPhaseLinearLoss
  }

  /** The example fires the four events in order and writes the two checkpoints. */
  lemma ExampleRunEvents(cfg: Config, files: map<string, Snapshot>)
    requires ExampleConfig(cfg)
    ensures FitSpec(cfg, FreshRun(files)).1 == Completed
    ensures FitSpec(cfg, FreshRun(files)).0.epoch == 4
    ensures FitSpec(cfg, FreshRun(files)).0.events
            == [StartingClassification(0), EndingClassification(2), StartingEarliness(2), EndingEarliness(4)]
    ensures WriteSlots(FitSpec(cfg, FreshRun(files)).0.writes)
            == [(ClassificationModelName(cfg.store), 2), (EarlinessModelName(cfg.store), 4)]
  {
    var r := FreshRun(files);
    FitCompletes(cfg, r);
    FitEvents(cfg, r);
    FitWrites(cfg, r);
    FreshRunEvents(cfg);
    assert WriteSlots([]) == [];
  }

  /** Any fresh run with 0 < switch_epoch < epochs completes and writes exactly two checkpoints:
      the classification one storing the switch epoch, then the earliness one storing the
      budget. */
  lemma FreshRunWrites(cfg: Config, files: map<string, Snapshot>)
    requires Runnable(cfg) && 0 < cfg.switchEpoch < cfg.epochs
    ensures FitSpec(cfg, FreshRun(files)).1 == Completed
    ensures WriteSlots(FitSpec(cfg, FreshRun(files)).0.writes)
            == [(ClassificationModelName(cfg.store), cfg.switchEpoch), (EarlinessModelName(cfg.store), cfg.epochs)]
  {
    var r := FreshRun(files);
    FitCompletes(cfg, r);
    FitWrites(cfg, r);
    FreshRunEvents(cfg);
    assert WriteSlots([]) == [];
  }

  /** The example trains at every epoch and tests, and logs, at epochs 2 and 4. */
  lemma ExampleRunPasses(cfg: Config, files: map<string, Snapshot>)
    requires ExampleConfig(cfg)
    ensures EpochsOf(TrainPass, FitSpec(cfg, FreshRun(files)).0.passes) == [1, 2, 3, 4]
    ensures EpochsOf(TestPass, FitSpec(cfg, FreshRun(files)).0.passes) == [2, 4]
    ensures FitSpec(cfg, FreshRun(files)).0.loggedData == [2, 4]
  {
    var r := FreshRun(files);
    FitPasses(cfg, r);
    FitLogged(cfg, r);
    assert Max(0, 4) == 4;
    assert FitSpec(cfg, r).0.passes == PassesBetween(cfg, 0, 4);
    PassCadence(cfg, 0, 4);
    TestEpochsOfFour(cfg);
    assert Interval(5, 5) == [] && Interval(4, 5) == [4] && Interval(3, 5) == [3, 4] && Interval(2, 5) == [2, 3, 4];
  }

  /** In the example only the pass at epoch 1 uses cross-entropy; from epoch 2 on every pass uses
      the linear early loss with the configured factors. */
  lemma ExampleRunLosses(cfg: Config, files: map<string, Snapshot>, p: Pass)
    requires ExampleConfig(cfg)
    requires p in FitSpec(cfg, FreshRun(files)).0.passes
    ensures p.epoch == 1 ==> p.loss == CrossEntropy
    ensures p.epoch != 1 ==> p.loss == EarlyLinear(cfg.earlinessFactor, cfg.entropyFactor)
  {
    FitPasses(cfg, FreshRun(files));
    assert Max(0, 4) == 4;
    PassesUseDispatchedLoss(cfg, 0, 4, p);
  }

  /** A fresh trainer (overwrite on) runs to completion; a second trainer on the same store with
      overwrite off resumes at the switch epoch, the counter the classification checkpoint stored.
      When the switch is before the budget, the resumed run fires the end of classification again
      (rewriting its checkpoint), then the start of earliness, then its end. */
  method ResumeAfterFreshRun(config: Config) returns (first: FitOutcome, resumedEpoch: int, second: FitOutcome,
                                                     ghost resumedEvents: seq<Event>)
    requires Runnable(config) && 0 < config.switchEpoch <= config.epochs
    ensures first == Completed && second == Completed
    ensures resumedEpoch == config.switchEpoch
    ensures config.switchEpoch < config.epochs ==>
              resumedEvents == [EndingClassification(config.switchEpoch), StartingEarliness(config.switchEpoch),
                                EndingEarliness(config.epochs)]
  {
    var disk := new Disk(map[]);
    var t1 := new Trainer(config, disk);
    ghost var s1 := t1.State();
    first := t1.Fit();
    ghost var cp := ClassificationModelName(config.store);
    assert first == Completed && cp in disk.files && disk.files[cp].epoch == config.switchEpoch by {
      FitCompletes(config, s1);
      ClassificationSlotAfterRun(config, s1);
    }

    var t2 := new Trainer(config, disk, false);
    resumedEpoch := t2.epoch;
    ghost var s2 := t2.State();
    assert s2.epoch == config.switchEpoch && s2.events == [];
    second := t2.Fit();
    assert second == Completed && t2.events == RunEvents(config, config.switchEpoch) by {
      FitCompletes(config, s2);
      FitEvents(config, s2);
    }
    resumedEvents := t2.events;
    if config.switchEpoch < config.epochs {
      ResumedAtSwitchEvents(config);
    }
  }

  /** Saving a checkpoint and resuming from it at once gives back the epoch counter and the
      logged data, whatever they were. */
  method SnapshotThenResume(t: Trainer, path: string) returns (epoch: int, loggedData: seq<int>)
    modifies t, t.disk
    ensures epoch == old(t.epoch) && loggedData == old(t.loggedData)
    ensures t.epoch == old(t.epoch) && t.loggedData == old(t.loggedData)
    ensures path in t.disk.files && t.disk.files[path] == Schedule.Snapshot(epoch, loggedData)
  {
    t.Snapshot(path);
    t.Resume(path);
    epoch, loggedData := t.epoch, t.loggedData;
  }

  /** With every constructor default (four epochs, switch at 2, testing every epoch, two-phase
      linear loss), and with the visualisation block of `fit` (trainer.py lines 121-139) taken to
      complete, a fresh run completes at epoch 4, fires the four phase events in order and
      writes the classification checkpoint at 2 and the earliness one at 4. */
  lemma DefaultConfigRun(files: map<string, Snapshot>)
    ensures FitSpec(Config(), FreshRun(files)).1 == Completed
    ensures FitSpec(Config(), FreshRun(files)).0.epoch == 4
    ensures FitSpec(Config(), FreshRun(files)).0.events
            == [StartingClassification(0), EndingClassification(2), StartingEarliness(2), EndingEarliness(4)]
    ensures WriteSlots(FitSpec(Config(), FreshRun(files)).0.writes)
            == [(ClassificationModelName("/tmp"), 2), (EarlinessModelName("/tmp"), 4)]
  {
    var cfg := Config();
    assert Runnable(cfg);
    var r := FreshRun(files);
    FitCompletes(cfg, r);
    FitEvents(cfg, r);
    FitWrites(cfg, r);
    FreshRunEvents(cfg);
    assert WriteSlots([]) == [];
  }
}
