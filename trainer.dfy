/** The `Trainer` object: its epoch counter, the logger's data, the checkpoint store it saves to
    and resumes from, and the epoch loop. Each step of the loop and each handler is proved to
    move the observable state exactly as the corresponding function of `Schedule` says. */
module Training {
  import opened Options
  import opened Loss
  import opened Checkpoints
  import opened Schedule

  /** The checkpoint files on disk, by path. */
  class Disk {
    var files: map<string, Snapshot>

    constructor (files: map<string, Snapshot>)
      ensures this.files == files
    {
      this.files := files;
    }
  }

  /** `__init__` resumes from the classification checkpoint exactly when it exists and
      overwriting is off. */
  predicate ResumesFrom(store: string, overwrite: bool, files: map<string, Snapshot>) {
    ClassificationModelName(store) in files && !overwrite
  }

  class Trainer {
    const config: Config
    const disk: Disk
    var epoch: int
    /** The logger's data: the epochs at which test statistics were logged. */
    var loggedData: seq<int>
    /** Phase notifications printed so far. */
    ghost var events: seq<Event>
    /** Checkpoints written so far, in order. */
    ghost var writes: seq<Write>
    /** Train and test passes run so far. */
    ghost var passes: seq<Pass>

    ghost function State(): Run
      reads this, disk
    {
      Run(epoch, loggedData, disk.files, events, writes, passes)
    }

    constructor (config: Config, disk: Disk, overwrite: bool := true)
      ensures this.config == config && this.disk == disk && disk.files == old(disk.files)
      ensures events == [] && writes == [] && passes == []
      ensures ResumesFrom(config.store, overwrite, disk.files) ==>
                epoch == disk.files[ClassificationModelName(config.store)].epoch &&
                loggedData == disk.files[ClassificationModelName(config.store)].loggedData
      ensures !ResumesFrom(config.store, overwrite, disk.files) ==> epoch == 0 && loggedData == []
    {
      this.config := config;
      this.disk := disk;
      epoch := 0;
      loggedData := [];
      events, writes, passes := [], [], [];
      new;
      if ClassificationModelName(config.store) in disk.files && !overwrite {
        Resume(ClassificationModelName(config.store));
      }
    }

    /** `resume`: restore the epoch counter and the logged data from a checkpoint. */
    method Resume(path: string)
      requires path in disk.files
      modifies this
      ensures epoch == disk.files[path].epoch && loggedData == disk.files[path].loggedData
      ensures events == old(events) && writes == old(writes) && passes == old(passes)
    {
      var snapshot := disk.files[path];
      epoch := snapshot.epoch;
      loggedData := snapshot.loggedData;
    }

    /** `snapshot`: store the epoch counter and the logged data under `path`. */
    method Snapshot(path: string)
      modifies this, disk
      ensures State() == TakeSnapshot(old(State()), path)
    {
      var snapshot := Schedule.Snapshot(epoch, loggedData);
      disk.files := disk.files[path := snapshot];
      writes := writes + [Write(path, snapshot)];
    }

    method StartingPhaseClassificationEvent()
      modifies this
      ensures State() == Handle(config, old(State()), StartingClassification(old(epoch)))
    {
      events := events + [StartingClassification(epoch)];
    }

    method EndingPhaseClassificationEvent()
      modifies this, disk
      ensures State() == Handle(config, old(State()), EndingClassification(old(epoch)))
    {
      var path := ClassificationModelName(config.store);
      ghost var s1 := State().(events := events + [EndingClassification(epoch)]);
      assert Handle(config, State(), EndingClassification(epoch)) == TakeSnapshot(s1, path);
      events := events + [EndingClassification(epoch)];
      Snapshot(path);
    }

    method StartingPhaseEarlinessEvent()
      modifies this
      ensures State() == Handle(config, old(State()), StartingEarliness(old(epoch)))
    {
      events := events + [StartingEarliness(epoch)];
    }

    method EndingPhaseEarlinessEvent()
      modifies this, disk
      ensures State() == Handle(config, old(State()), EndingEarliness(old(epoch)))
    {
      var path := EarlinessModelName(config.store);
      ghost var s1 := State().(events := events + [EndingEarliness(epoch)]);
      assert Handle(config, State(), EndingEarliness(epoch)) == TakeSnapshot(s1, path);
      events := events + [EndingEarliness(epoch)];
      Snapshot(path);
    }

    /** `check_events`: at most one branch, by priority start, switch, end. */
    method CheckEvents()
      modifies this, disk
      ensures State() == CheckEventsSpec(config, old(State()))
    {
      ghost var s0 := State();
      if epoch == 0 {
        StartingPhaseClassificationEvent();
        assert State() == HandleAll(config, s0, [StartingClassification(0)]);
      } else if epoch == config.switchEpoch {
        EndingPhaseClassificationEvent();
        ghost var s1 := State();
        StartingPhaseEarlinessEvent();
        assert State() == HandleAll(config, s1, [StartingEarliness(s0.epoch)]);
        assert [EndingClassification(s0.epoch), StartingEarliness(s0.epoch)][1..] == [StartingEarliness(s0.epoch)];
      } else if epoch == config.epochs {
        EndingPhaseEarlinessEvent();
        assert State() == HandleAll(config, s0, [EndingEarliness(s0.epoch)]);
      }
    }

    /** `new_epoch`: check events at the current epoch, then increment it. */
    method NewEpoch()
      modifies this, disk
      ensures State() == NewEpochSpec(config, old(State()))
    {
      CheckEvents();
      epoch := epoch + 1;
    }

    /** `train_epoch(self.epoch)` as one step: the batches' arithmetic is not modelled, only the
        loss every batch dispatches to (the same for all of them). */
    method TrainEpoch() returns (err: Option<Error>)
      modifies this
      ensures (State(), err) == PassSpec(config, old(State()), TrainPass)
    {
      var d := LossCriterion(Some(epoch), config.lossMode, epoch, config.switchEpoch,
                             config.earlinessFactor, config.entropyFactor);
      match d
      case Call(c) =>
        passes := passes + [Pass(TrainPass, epoch, c)];
        err := None;
      case WrongLossMode =>
        err := Some(ValueError);
    }

    /** `test_epoch(self.epoch)` as one step, like `TrainEpoch` but without optimizer steps. */
    method TestEpoch() returns (err: Option<Error>)
      modifies this
      ensures (State(), err) == PassSpec(config, old(State()), TestPass)
    {
      var d := LossCriterion(Some(epoch), config.lossMode, epoch, config.switchEpoch,
                             config.earlinessFactor, config.entropyFactor);
      match d
      case Call(c) =>
        passes := passes + [Pass(TestPass, epoch, c)];
        err := None;
      case WrongLossMode =>
        err := Some(ValueError);
    }

    /** `fit`: the epoch loop followed by a final event check. An exception ends the run. */
    method Fit() returns (outcome: FitOutcome)
      modifies this, disk
      ensures (State(), outcome) == FitSpec(config, old(State()))
    {
      while epoch < config.epochs
        invariant FitSpec(config, State()) == FitSpec(config, old(State()))
        decreases config.epochs - epoch
      {
        ghost var s0 := State();
        NewEpoch();
        var err := TrainEpoch();
        if err.Some? {
          return Raised(err.value);
        }
        if config.testEveryNEpochs == 0 {
          return Raised(ZeroDivisionError);
        }
        if PyMod(epoch, config.testEveryNEpochs) == 0 {
          err := TestEpoch();
          if err.Some? {
            // The test pass dispatches on the loss mode the train pass has just accepted.
            assert false;
          }
          loggedData := loggedData + [epoch];
        }
        assert (State(), None) == IterationSpec(config, s0);
      }
      CheckEvents();
      return Completed;
    }
  }
}
