/** What a run of `fit` does as a whole, proved about the functions of `Schedule`: the closed form
    of a run, the event sequences and checkpoint writes of the interesting configurations, the
    train and test cadence, the loss each pass used, and the error paths. */
module RunProperties {
  import opened Options
  import opened Phases
  import opened Loss
  import opened Checkpoints
  import opened Schedule

  // ---------------------------------------------------------------------------------------
  // Sequence helpers

  lemma Associative<T>(a: seq<T>, b: seq<T>, c: seq<T>)
    ensures (a + b) + c == a + (b + c)
  {
  }

  /** The integers a, a+1, ..., b-1. */
  function Interval(a: int, b: int): seq<int>
    decreases b - a
  {
    if b <= a then [] else [a] + Interval(a + 1, b)
  }

  /** The epochs of the passes of one kind, in order. */
  function EpochsOf(kind: PassKind, ps: seq<Pass>): seq<int>
    decreases |ps|
  {
    if ps == [] then []
    else (if ps[0].kind == kind then [ps[0].epoch] else []) + EpochsOf(kind, ps[1..])
  }

  lemma {:induction false} EpochsOfAppend(kind: PassKind, a: seq<Pass>, b: seq<Pass>)
    ensures EpochsOf(kind, a + b) == EpochsOf(kind, a) + EpochsOf(kind, b)
    decreases |a|
  {
    if a != [] {
      assert (a + b)[0] == a[0];
      assert (a + b)[1..] == a[1..] + b;
      EpochsOfAppend(kind, a[1..], b);
    } else {
      assert a + b == b;
    }
  }

  lemma {:induction false} EventSlotsAppend(store: string, a: seq<Event>, b: seq<Event>)
    ensures EventSlots(store, a + b) == EventSlots(store, a) + EventSlots(store, b)
    decreases |a|
  {
    if a != [] {
      assert (a + b)[1..] == a[1..] + b;
      assert (a + b)[0] == a[0];
      EventSlotsAppend(store, a[1..], b);
      match EventSlot(store, a[0])
      case Some(path) =>
        assert EventSlots(store, a + b) == [(path, a[0].at)] + EventSlots(store, a[1..] + b);
        assert EventSlots(store, a) == [(path, a[0].at)] + EventSlots(store, a[1..]);
      case None =>
        assert EventSlots(store, a + b) == EventSlots(store, a[1..] + b);
        assert EventSlots(store, a) == EventSlots(store, a[1..]);
    } else {
      assert a + b == b;
    }
  }

  // ---------------------------------------------------------------------------------------
  // One check, one iteration

  lemma EventSlotsCons(store: string, evs: seq<Event>)
    requires evs != []
    ensures EventSlots(store, evs) == EventSlots(store, [evs[0]]) + EventSlots(store, evs[1..])
  {
    var head := [evs[0]];
    assert head[0] == evs[0] && head[1..] == [];
    match EventSlot(store, evs[0])
    case Some(path) =>
      assert EventSlots(store, head) == [(path, evs[0].at)];
    case None =>
      assert EventSlots(store, head) == [];
  }

  lemma WriteSlotsAppend(ws: seq<Write>, w: Write)
    ensures WriteSlots(ws + [w]) == WriteSlots(ws) + [(w.path, w.snapshot.epoch)]
  {
    assert (ws + [w])[..|ws|] == ws;
  }

  /** One handler writes the slot its event calls for, storing the current epoch. */
  lemma HandleSlots(cfg: Config, r: Run, ev: Event)
    requires ev.at == r.epoch
    ensures Handle(cfg, r, ev).epoch == r.epoch
    ensures WriteSlots(Handle(cfg, r, ev).writes) == WriteSlots(r.writes) + EventSlots(cfg.store, [ev])
  {
    assert [ev][1..] == [];
    match EventSlot(cfg.store, ev)
    case Some(path) =>
      WriteSlotsAppend(r.writes, Write(path, Snapshot(r.epoch, r.loggedData)));
    case None =>
  }

  /** The handlers of events fired at the current epoch write exactly the slots the events call
      for, each storing that epoch. */
  lemma {:induction false} HandleAllSlots(cfg: Config, r: Run, evs: seq<Event>)
    requires forall ev :: ev in evs ==> ev.at == r.epoch
    ensures WriteSlots(HandleAll(cfg, r, evs).writes) == WriteSlots(r.writes) + EventSlots(cfg.store, evs)
    decreases |evs|
  {
    if evs == [] {
      assert WriteSlots(r.writes) + [] == WriteSlots(r.writes);
    } else {
      var r1 := Handle(cfg, r, evs[0]);
      HandleSlots(cfg, r, evs[0]);
      assert forall ev :: ev in evs[1..] ==> ev in evs;
      HandleAllSlots(cfg, r1, evs[1..]);
      assert HandleAll(cfg, r, evs) == HandleAll(cfg, r1, evs[1..]);
      EventSlotsCons(cfg.store, evs);
      Associative(WriteSlots(r.writes), EventSlots(cfg.store, [evs[0]]), EventSlots(cfg.store, evs[1..]));
    }
  }

  /** `check_events` at the switch epoch (when it is not 0) leaves the classification checkpoint
      storing that epoch; at any other epoch it leaves that checkpoint alone. */
  lemma CheckEventsClassificationSlot(cfg: Config, r: Run)
    ensures var out := CheckEventsSpec(cfg, r);
            var cp := ClassificationModelName(cfg.store);
            if r.epoch != 0 && r.epoch == cfg.switchEpoch then cp in out.files && out.files[cp].epoch == r.epoch
            else (cp in out.files <==> cp in r.files) && (cp in r.files ==> out.files[cp] == r.files[cp])
  {
    var e := r.epoch;
    if e == 0 {
      SingleHandler(cfg, r, FiredAt(cfg, e));
    } else if e == cfg.switchEpoch {
      SwitchCheckFiles(cfg, r);
    } else if e == cfg.epochs {
      BudgetCheckFiles(cfg, r);
    } else {
      assert FiredAt(cfg, e) == [];
    }
  }

  /** The check at a non-zero switch epoch writes the classification checkpoint only. */
  lemma SwitchCheckFiles(cfg: Config, r: Run)
    requires r.epoch != 0 && r.epoch == cfg.switchEpoch
    ensures CheckEventsSpec(cfg, r).files
         == r.files[ClassificationModelName(cfg.store) := Snapshot(r.epoch, r.loggedData)]
  {
    var e := r.epoch;
    var r1 := Handle(cfg, r, EndingClassification(e));
    assert FiredAt(cfg, e) == [EndingClassification(e), StartingEarliness(e)];
    assert FiredAt(cfg, e)[1..] == [StartingEarliness(e)];
    SingleHandler(cfg, r1, [StartingEarliness(e)]);
  }

  /** The check at the budget, when it is neither 0 nor the switch, writes the earliness
      checkpoint only. */
  lemma BudgetCheckFiles(cfg: Config, r: Run)
    requires r.epoch != 0 && r.epoch != cfg.switchEpoch && r.epoch == cfg.epochs
    ensures CheckEventsSpec(cfg, r).files
         == r.files[EarlinessModelName(cfg.store) := Snapshot(r.epoch, r.loggedData)]
    ensures ClassificationModelName(cfg.store) != EarlinessModelName(cfg.store)
  {
    ModelNamesDistinct(cfg.store);
    assert FiredAt(cfg, r.epoch) == [EndingEarliness(r.epoch)];
    SingleHandler(cfg, r, FiredAt(cfg, r.epoch));
  }

  /** Running the handler of a single event. */
  lemma SingleHandler(cfg: Config, r: Run, evs: seq<Event>)
    requires |evs| == 1
    ensures HandleAll(cfg, r, evs) == Handle(cfg, r, evs[0])
  {
    assert evs[1..] == [];
  }

  /** One iteration of a runnable configuration raises nothing and moves the counter up by one. */
  lemma IterationAdvances(cfg: Config, r: Run)
    requires Runnable(cfg)
    ensures IterationSpec(cfg, r).1 == None
    ensures IterationSpec(cfg, r).0.epoch == r.epoch + 1
  {
  }

  /** One iteration fires the events due at the old counter and writes what they call for. */
  lemma IterationEvents(cfg: Config, r: Run)
    requires Runnable(cfg)
    ensures IterationSpec(cfg, r).0.events == r.events + FiredAt(cfg, r.epoch)
    ensures IterationSpec(cfg, r).0.files == CheckEventsSpec(cfg, r).files
    ensures WriteSlots(IterationSpec(cfg, r).0.writes) == WriteSlots(r.writes) + EventSlots(cfg.store, FiredAt(cfg, r.epoch))
  {
    HandleAllSlots(cfg, r, FiredAt(cfg, r.epoch));
  }

  /** One iteration makes the passes of the new counter and logs it if it is a test epoch. */
  lemma IterationPassesStep(cfg: Config, r: Run)
    requires Runnable(cfg)
    ensures IterationSpec(cfg, r).0.passes == r.passes + IterationPasses(cfg, r.epoch + 1)
    ensures IterationSpec(cfg, r).0.loggedData == r.loggedData + TestEpochsBetween(cfg, r.epoch, r.epoch + 1)
  {
    assert TestEpochsBetween(cfg, r.epoch + 1, r.epoch + 1) == [];
  }

  // ---------------------------------------------------------------------------------------
  // The whole run

  lemma FitUnfold(cfg: Config, r: Run)
    requires Runnable(cfg) && r.epoch < cfg.epochs
    ensures FitSpec(cfg, r) == FitSpec(cfg, IterationSpec(cfg, r).0)
  {
    IterationAdvances(cfg, r);
  }

  /** The state after one iteration of a runnable configuration, and what it changed. */
  lemma Step(cfg: Config, r: Run) returns (r1: Run)
    requires Runnable(cfg) && r.epoch < cfg.epochs
    ensures FitSpec(cfg, r) == FitSpec(cfg, r1)
    ensures r1.epoch == r.epoch + 1
    ensures r1.passes == r.passes + IterationPasses(cfg, r.epoch + 1)
    ensures r1.loggedData == r.loggedData + TestEpochsBetween(cfg, r.epoch, r.epoch + 1)
  {
    r1 := IterationSpec(cfg, r).0;
    IterationAdvances(cfg, r);
    IterationPassesStep(cfg, r);
    FitUnfold(cfg, r);
  }

  /** A run of a runnable configuration always completes, with the counter at the epoch budget
      (or where it was, if already past it). */
  lemma {:induction false} FitCompletes(cfg: Config, r: Run)
    requires Runnable(cfg)
    ensures FitSpec(cfg, r).1 == Completed
    ensures FitSpec(cfg, r).0.epoch == Max(r.epoch, cfg.epochs)
    decreases cfg.epochs - r.epoch
  {
    if r.epoch < cfg.epochs {
      IterationAdvances(cfg, r);
      FitUnfold(cfg, r);
      FitCompletes(cfg, IterationSpec(cfg, r).0);
    }
  }

  lemma RunEventsStep(cfg: Config, e: int)
    requires e < cfg.epochs
    ensures RunEvents(cfg, e) == FiredAt(cfg, e) + RunEvents(cfg, e + 1)
  {
    Associative(FiredAt(cfg, e), EventsBetween(cfg, e + 1, cfg.epochs), FiredAt(cfg, cfg.epochs));
  }

  /** The events of a run. */
  lemma {:induction false} FitEvents(cfg: Config, r: Run)
    requires Runnable(cfg)
    ensures FitSpec(cfg, r).0.events == r.events + RunEvents(cfg, r.epoch)
    decreases cfg.epochs - r.epoch
  {
    if r.epoch < cfg.epochs {
      IterationAdvances(cfg, r);
      IterationEvents(cfg, r);
      var r1 := IterationSpec(cfg, r).0;
      FitUnfold(cfg, r);
      FitEvents(cfg, r1);
      RunEventsStep(cfg, r.epoch);
      Associative(r.events, FiredAt(cfg, r.epoch), RunEvents(cfg, r1.epoch));
    } else {
      assert RunEvents(cfg, r.epoch) == FiredAt(cfg, r.epoch);
    }
  }

  /** The checkpoint writes of a run: one per event that calls for one, storing the epoch at
      which the event fired. */
  lemma {:induction false} FitWrites(cfg: Config, r: Run)
    requires Runnable(cfg)
    ensures WriteSlots(FitSpec(cfg, r).0.writes) == WriteSlots(r.writes) + EventSlots(cfg.store, RunEvents(cfg, r.epoch))
    decreases cfg.epochs - r.epoch
  {
    if r.epoch < cfg.epochs {
      IterationAdvances(cfg, r);
      IterationEvents(cfg, r);
      var r1 := IterationSpec(cfg, r).0;
      FitUnfold(cfg, r);
      FitWrites(cfg, r1);
      var fired := FiredAt(cfg, r.epoch);
      RunEventsStep(cfg, r.epoch);
      EventSlotsAppend(cfg.store, fired, RunEvents(cfg, r1.epoch));
      Associative(WriteSlots(r.writes), EventSlots(cfg.store, fired), EventSlots(cfg.store, RunEvents(cfg, r1.epoch)));
    } else {
      HandleAllSlots(cfg, r, FiredAt(cfg, r.epoch));
      assert RunEvents(cfg, r.epoch) == FiredAt(cfg, r.epoch);
    }
  }

  /** The passes a run makes: one iteration's worth for every epoch it moves through. */
  lemma {:induction false} FitPasses(cfg: Config, r: Run)
    requires Runnable(cfg)
    ensures FitSpec(cfg, r).0.passes == r.passes + PassesBetween(cfg, r.epoch, Max(r.epoch, cfg.epochs))
    decreases cfg.epochs - r.epoch
  {
    var end := Max(r.epoch, cfg.epochs);
    if r.epoch < cfg.epochs {
      var r1 := Step(cfg, r);
      assert Max(r1.epoch, cfg.epochs) == end;
      FitPasses(cfg, r1);
      var ps := IterationPasses(cfg, r.epoch + 1);
      assert PassesBetween(cfg, r.epoch, end) == ps + PassesBetween(cfg, r1.epoch, end);
      Associative(r.passes, ps, PassesBetween(cfg, r1.epoch, end));
    } else {
      assert r.passes + [] == r.passes;
    }
  }

  lemma TestEpochsFirst(cfg: Config, lo: int, hi: int)
    requires cfg.testEveryNEpochs != 0 && lo < hi
    ensures TestEpochsBetween(cfg, lo, hi) == TestEpochsBetween(cfg, lo, lo + 1) + TestEpochsBetween(cfg, lo + 1, hi)
  {
    var first := if IsTestEpoch(cfg, lo + 1) then [lo + 1] else [];
    assert TestEpochsBetween(cfg, lo + 1, lo + 1) == [];
    assert TestEpochsBetween(cfg, lo, lo + 1) == first + [];
    assert first + [] == first;
  }

  /** The epochs whose test statistics a run logs: the test epochs it moves through. */
  lemma {:induction false} FitLogged(cfg: Config, r: Run)
    requires Runnable(cfg)
    ensures FitSpec(cfg, r).0.loggedData == r.loggedData + TestEpochsBetween(cfg, r.epoch, Max(r.epoch, cfg.epochs))
    decreases cfg.epochs - r.epoch
  {
    var end := Max(r.epoch, cfg.epochs);
    if r.epoch < cfg.epochs {
      var r1 := Step(cfg, r);
      assert Max(r1.epoch, cfg.epochs) == end;
      FitLogged(cfg, r1);
      var ts := TestEpochsBetween(cfg, r.epoch, r.epoch + 1);
      var rest := TestEpochsBetween(cfg, r1.epoch, end);
      TestEpochsFirst(cfg, r.epoch, end);
      Associative(r.loggedData, ts, rest);
    } else {
      assert r.loggedData + [] == r.loggedData;
    }
  }
}
