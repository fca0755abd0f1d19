/** The event sequences and checkpoint writes of the configurations that matter: a fresh run, a
    switch at the very end or at the very start, and a run resumed at the switch epoch. */
module EventProperties {
  import opened Phases
  import opened Checkpoints
  import opened Schedule
  import opened RunProperties

  /** An epoch at which no check fires: neither 0, nor the switch, nor the budget. */
  predicate Quiet(cfg: Config, e: int) {
    e != 0 && e != cfg.switchEpoch && e != cfg.epochs
  }

  /** No check in lo..hi-1 fires anything when all of them are quiet. */
  lemma {:induction false} QuietStretch(cfg: Config, lo: int, hi: int)
    requires forall e :: lo <= e < hi ==> Quiet(cfg, e)
    ensures EventsBetween(cfg, lo, hi) == []
    decreases hi - lo
  {
    if lo < hi {
      assert Quiet(cfg, lo);
      QuietStretch(cfg, lo + 1, hi);
    }
  }

  /** The checkpoint write one event causes. */
  lemma SingleSlot(store: string, ev: Event)
    ensures EventSlots(store, [ev]) ==
              if ev.EndingClassification? then [(ClassificationModelName(store), ev.at)]
              else if ev.EndingEarliness? then [(EarlinessModelName(store), ev.at)]
              else []
  {
    var l := [ev];
    assert l[0] == ev && l[1..] == [];
    match EventSlot(store, ev)
    case Some(path) =>
      assert EventSlots(store, l) == [(path, ev.at)];
    case None =>
      assert EventSlots(store, l) == [];
  }

  /** The writes of an event followed by others. */
  lemma SlotsCons(store: string, ev: Event, rest: seq<Event>)
    ensures EventSlots(store, [ev] + rest) == EventSlots(store, [ev]) + EventSlots(store, rest)
  {
    var l := [ev] + rest;
    assert l[0] == ev && l[1..] == rest;
    EventSlotsCons(store, l);
  }

  lemma {:induction false} EventsSplit(cfg: Config, lo: int, mid: int, hi: int)
    requires lo <= mid <= hi
    ensures EventsBetween(cfg, lo, hi) == EventsBetween(cfg, lo, mid) + EventsBetween(cfg, mid, hi)
    decreases mid - lo
  {
    if lo < mid {
      EventsSplit(cfg, lo + 1, mid, hi);
      Associative(FiredAt(cfg, lo), EventsBetween(cfg, lo + 1, mid), EventsBetween(cfg, mid, hi));
    } else {
      assert [] + EventsBetween(cfg, mid, hi) == EventsBetween(cfg, mid, hi);
    }
  }

  /** Every event of the checks lo..hi-1 is one that its own check fires. */
  lemma {:induction false} EventsBetweenAt(cfg: Config, lo: int, hi: int, ev: Event)
    requires ev in EventsBetween(cfg, lo, hi)
    ensures lo <= ev.at < hi && ev in FiredAt(cfg, ev.at)
    decreases hi - lo
  {
    if ev !in FiredAt(cfg, lo) {
      EventsBetweenAt(cfg, lo + 1, hi, ev);
    }
  }

  /** The writes from the switch onwards: the classification checkpoint at s, then the
      earliness one at n. */
  lemma FromSwitchSlots(store: string, s: int, n: int)
    ensures EventSlots(store, [EndingClassification(s), StartingEarliness(s), EndingEarliness(n)])
            == [(ClassificationModelName(store), s), (EarlinessModelName(store), n)]
  {
    SlotsCons(store, StartingEarliness(s), [EndingEarliness(n)]);
    assert [StartingEarliness(s)] + [EndingEarliness(n)] == [StartingEarliness(s), EndingEarliness(n)];
    SingleSlot(store, StartingEarliness(s));
    SingleSlot(store, EndingEarliness(n));
    SlotsCons(store, EndingClassification(s), [StartingEarliness(s), EndingEarliness(n)]);
    assert [EndingClassification(s)] + [StartingEarliness(s), EndingEarliness(n)]
        == [EndingClassification(s), StartingEarliness(s), EndingEarliness(n)];
    SingleSlot(store, EndingClassification(s));
  }

  /** The writes of a fresh run with 0 < s < n. */
  lemma FreshRunSlots(store: string, s: int, n: int)
    ensures EventSlots(store, [StartingClassification(0), EndingClassification(s), StartingEarliness(s),
                               EndingEarliness(n)])
            == [(ClassificationModelName(store), s), (EarlinessModelName(store), n)]
  {
    var tail := [EndingClassification(s), StartingEarliness(s), EndingEarliness(n)];
    FromSwitchSlots(store, s, n);
    SlotsCons(store, StartingClassification(0), tail);
    assert [StartingClassification(0)] + tail
        == [StartingClassification(0), EndingClassification(s), StartingEarliness(s), EndingEarliness(n)];
    SingleSlot(store, StartingClassification(0));
  }

  /** The events between the switch and the budget, for 0 < switch < budget. */
  lemma FromSwitchEvents(cfg: Config)
    requires 0 < cfg.switchEpoch < cfg.epochs
    ensures EventsBetween(cfg, cfg.switchEpoch, cfg.epochs)
            == [EndingClassification(cfg.switchEpoch), StartingEarliness(cfg.switchEpoch)]
  {
    var s := cfg.switchEpoch;
    QuietStretch(cfg, s + 1, cfg.epochs);
    assert EventsBetween(cfg, s, cfg.epochs) == FiredAt(cfg, s) + EventsBetween(cfg, s + 1, cfg.epochs);
  }

  /** A fresh run with 0 < switch_epoch < epochs fires each of the four events once, in phase
      order, and writes exactly two checkpoints: the classification one storing the switch epoch,
      then the earliness one storing the epoch budget. */
  lemma FreshRunEvents(cfg: Config)
    requires 0 < cfg.switchEpoch < cfg.epochs
    ensures RunEvents(cfg, 0) == [StartingClassification(0), EndingClassification(cfg.switchEpoch),
                                  StartingEarliness(cfg.switchEpoch), EndingEarliness(cfg.epochs)]
    ensures EventSlots(cfg.store, RunEvents(cfg, 0))
            == [(ClassificationModelName(cfg.store), cfg.switchEpoch), (EarlinessModelName(cfg.store), cfg.epochs)]
  {
    var s, n := cfg.switchEpoch, cfg.epochs;
    FreshEventsBetween(cfg);
    assert Max(0, n) == n;
    assert FiredAt(cfg, n) == [EndingEarliness(n)];
    FreshRunSlots(cfg.store, s, n);
  }

  lemma FreshEventsBetween(cfg: Config)
    requires 0 < cfg.switchEpoch < cfg.epochs
    ensures EventsBetween(cfg, 0, cfg.epochs)
            == [StartingClassification(0), EndingClassification(cfg.switchEpoch), StartingEarliness(cfg.switchEpoch)]
  {
    var s, n := cfg.switchEpoch, cfg.epochs;
    EventsSplit(cfg, 1, s, n);
    QuietStretch(cfg, 1, s);
    FromSwitchEvents(cfg);
    assert EventsBetween(cfg, 0, n) == FiredAt(cfg, 0) + EventsBetween(cfg, 1, n);
  }

  /** With switch_epoch == epochs > 0 the run ends on the switch: the classification checkpoint
      is written and the earliness one never is. */
  lemma SwitchAtBudgetEvents(cfg: Config)
    requires 0 < cfg.switchEpoch == cfg.epochs
    ensures RunEvents(cfg, 0) == [StartingClassification(0), EndingClassification(cfg.epochs),
                                  StartingEarliness(cfg.epochs)]
    ensures EventSlots(cfg.store, RunEvents(cfg, 0)) == [(ClassificationModelName(cfg.store), cfg.epochs)]
  {
    var n := cfg.epochs;
    var evs := [StartingClassification(0), EndingClassification(n), StartingEarliness(n)];
    assert RunEvents(cfg, 0) == evs by {
      QuietStretch(cfg, 1, n);
      assert FiredAt(cfg, 0) == [StartingClassification(0)];
      assert EventsBetween(cfg, 0, n) == FiredAt(cfg, 0) + EventsBetween(cfg, 1, n);
      assert Max(0, n) == n;
      assert FiredAt(cfg, n) == [EndingClassification(n), StartingEarliness(n)];
    }
    assert EventSlots(cfg.store, evs) == [(ClassificationModelName(cfg.store), n)] by {
      SlotsCons(cfg.store, EndingClassification(n), [StartingEarliness(n)]);
      assert [EndingClassification(n)] + [StartingEarliness(n)] == [EndingClassification(n), StartingEarliness(n)];
      SlotsCons(cfg.store, StartingClassification(0), [EndingClassification(n), StartingEarliness(n)]);
      assert [StartingClassification(0)] + [EndingClassification(n), StartingEarliness(n)] == evs;
      SingleSlot(cfg.store, StartingClassification(0));
      SingleSlot(cfg.store, EndingClassification(n));
      SingleSlot(cfg.store, StartingEarliness(n));
    }
  }

  /** With switch_epoch == 0 < epochs the switch coincides with the start, which has priority:
      the run starts classification, never ends it, and writes only the earliness checkpoint. */
  lemma SwitchAtStartEvents(cfg: Config)
    requires cfg.switchEpoch == 0 < cfg.epochs
    ensures RunEvents(cfg, 0) == [StartingClassification(0), EndingEarliness(cfg.epochs)]
    ensures EventSlots(cfg.store, RunEvents(cfg, 0)) == [(EarlinessModelName(cfg.store), cfg.epochs)]
  {
    var n := cfg.epochs;
    var evs := [StartingClassification(0), EndingEarliness(n)];
    assert RunEvents(cfg, 0) == evs by {
      QuietStretch(cfg, 1, n);
      assert FiredAt(cfg, 0) == [StartingClassification(0)];
      assert EventsBetween(cfg, 0, n) == FiredAt(cfg, 0) + EventsBetween(cfg, 1, n);
      assert Max(0, n) == n;
      assert FiredAt(cfg, n) == [EndingEarliness(n)];
    }
    assert EventSlots(cfg.store, evs) == [(EarlinessModelName(cfg.store), n)] by {
      SingleSlot(cfg.store, StartingClassification(0));
      SingleSlot(cfg.store, EndingEarliness(n));
      SlotsCons(cfg.store, StartingClassification(0), [EndingEarliness(n)]);
      assert [StartingClassification(0)] + [EndingEarliness(n)] == evs;
    }
  }

  /** A run resumed at the switch epoch (where the classification checkpoint was taken) fires
      the end of classification again and rewrites that checkpoint before going on. */
  lemma ResumedAtSwitchEvents(cfg: Config)
    requires 0 < cfg.switchEpoch < cfg.epochs
    ensures RunEvents(cfg, cfg.switchEpoch) == [EndingClassification(cfg.switchEpoch),
                                                StartingEarliness(cfg.switchEpoch), EndingEarliness(cfg.epochs)]
    ensures EventSlots(cfg.store, RunEvents(cfg, cfg.switchEpoch))
            == [(ClassificationModelName(cfg.store), cfg.switchEpoch), (EarlinessModelName(cfg.store), cfg.epochs)]
  {
    var s, n := cfg.switchEpoch, cfg.epochs;
    FromSwitchEvents(cfg);
    var evs := [EndingClassification(s), StartingEarliness(s), EndingEarliness(n)];
    assert Max(s, n) == n;
    assert FiredAt(cfg, n) == [EndingEarliness(n)];
    assert RunEvents(cfg, s) == evs;
    FromSwitchSlots(cfg.store, s, n);
  }

  /** A run that starts past epoch 0, as a resumed one does, never announces the start of
      classification. */
  lemma NoStartAfterResume(cfg: Config, start: int)
    requires 0 < start
    ensures forall ev :: ev in RunEvents(cfg, start) ==> !ev.StartingClassification?
  {
    forall ev | ev in RunEvents(cfg, start)
      ensures !ev.StartingClassification?
    {
      var end := Max(start, cfg.epochs);
      if ev in EventsBetween(cfg, start, end) {
        EventsBetweenAt(cfg, start, end, ev);
      }
    }
  }
}
