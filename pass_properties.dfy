/** The train and test passes of a run: which epochs they run at, which loss they dispatch to,
    and which epochs' test statistics reach the logger. */
module PassProperties {
  import opened Loss
  import opened Schedule
  import opened RunProperties

  /** A train pass runs at every epoch lo+1..hi once, in order; a test pass runs exactly at the
      test epochs among them. */
  lemma {:induction false} PassCadence(cfg: Config, lo: int, hi: int)
    requires Runnable(cfg) && lo <= hi
    ensures EpochsOf(TrainPass, PassesBetween(cfg, lo, hi)) == Interval(lo + 1, hi + 1)
    ensures EpochsOf(TestPass, PassesBetween(cfg, lo, hi)) == TestEpochsBetween(cfg, lo, hi)
    decreases hi - lo
  {
    if lo < hi {
      var ps := IterationPasses(cfg, lo + 1);
      PassCadence(cfg, lo + 1, hi);
      EpochsOfAppend(TrainPass, ps, PassesBetween(cfg, lo + 1, hi));
      EpochsOfAppend(TestPass, ps, PassesBetween(cfg, lo + 1, hi));
      IterationPassEpochs(cfg, lo + 1);
    }
  }

  lemma IterationPassEpochs(cfg: Config, e: int)
    requires Runnable(cfg)
    ensures EpochsOf(TrainPass, IterationPasses(cfg, e)) == [e]
    ensures EpochsOf(TestPass, IterationPasses(cfg, e)) == if IsTestEpoch(cfg, e) then [e] else []
  {
    var train := Pass(TrainPass, e, DispatchedCall(cfg, e));
    var test := Pass(TestPass, e, DispatchedCall(cfg, e));
    assert [train][1..] == [];
    if IsTestEpoch(cfg, e) {
      assert IterationPasses(cfg, e) == [train, test];
      assert [train, test][1..] == [test];
      assert [test][1..] == [];
      assert EpochsOf(TestPass, [test]) == [e] + EpochsOf(TestPass, []);
      assert EpochsOf(TrainPass, [test]) == [] && EpochsOf(TestPass, [test]) == [e];
      assert EpochsOf(TrainPass, [train, test]) == [e] + EpochsOf(TrainPass, [test]);
      assert EpochsOf(TestPass, [train, test]) == [] + EpochsOf(TestPass, [test]);
    } else {
      assert IterationPasses(cfg, e) == [train];
    }
  }

  /** The test epochs between lo and hi are exactly the epochs lo+1..hi that the cadence divides;
      for a positive cadence n that is `e % n == 0`. */
  lemma {:induction false} TestEpochsExactly(cfg: Config, lo: int, hi: int, e: int)
    requires cfg.testEveryNEpochs != 0
    ensures e in TestEpochsBetween(cfg, lo, hi) <==> lo < e <= hi && IsTestEpoch(cfg, e)
    ensures 0 < cfg.testEveryNEpochs ==> (IsTestEpoch(cfg, e) <==> e % cfg.testEveryNEpochs == 0)
    decreases hi - lo
  {
    if lo < hi {
      TestEpochsExactly(cfg, lo + 1, hi, e);
    }
  }

  /** Every pass of a run is at an epoch of the run and uses the loss dispatched at that epoch. */
  lemma {:induction false} PassesUseDispatchedLoss(cfg: Config, lo: int, hi: int, p: Pass)
    requires Runnable(cfg)
    requires p in PassesBetween(cfg, lo, hi)
    ensures lo < p.epoch <= hi && p.loss == DispatchedCall(cfg, p.epoch)
    decreases hi - lo
  {
    if p !in IterationPasses(cfg, lo + 1) {
      PassesUseDispatchedLoss(cfg, lo + 1, hi, p);
    }
  }

  /** Under a two-phase loss mode a pass uses cross-entropy exactly when its epoch is below the
      switch epoch: the counter is advanced before the pass, so the pass at the switch epoch
      itself already uses the early loss. */
  lemma TwoPhasePassLoss(cfg: Config, lo: int, hi: int, p: Pass)
    requires Runnable(cfg) && cfg.lossMode in TwoPhaseModes
    requires p in PassesBetween(cfg, lo, hi)
    ensures p.loss == CrossEntropy <==> p.epoch < cfg.switchEpoch
  {
    PassesUseDispatchedLoss(cfg, lo, hi, p);
  }
}
