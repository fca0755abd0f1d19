/** Which loss function of the model a training or test step calls (`Trainer.loss_criterion`).
    Only the decision is modelled: the loss computations themselves belong to the model. */
module Loss {
  import opened Options
  import opened Phases

  /** The model loss call selected, with the factors it receives. */
  datatype LossCall =
    | CrossEntropy                                    // model.loss_cross_entropy
    | EarlyLoss(factor: real)                         // model.early_loss(.., earliness_factor)
    | EarlySimple(alpha: real)                        // model.early_loss_simple(.., alpha=..)
    | EarlyLinear(alpha: real, entropy: real)         // model.early_loss_linear(.., alpha=.., entropy_factor=..)
    | EarlyCrossEntropy(alpha: real, entropy: real)   // model.early_loss_cross_entropy(.., alpha=.., entropy_factor=..)

  /** What `loss_criterion` does: return a loss call, raise `ValueError` for an unknown mode, or
      run off the end of a two-phase branch and return Python's `None`. */
  datatype Dispatched = Call(call: LossCall) | WrongLossMode | NoneReturned

  const EarlyReward: string := "early_reward"
  const LossCrossEntropy: string := "loss_cross_entropy"
  const TwoPhaseEarlyReward: string := "twophase_early_reward"
  const TwoPhaseLinearLoss: string := "twophase_linear_loss"
  const TwoPhaseCrossEntropy: string := "twophase_cross_entropy"

  const TwoPhaseModes: set<string> := {TwoPhaseEarlyReward, TwoPhaseLinearLoss, TwoPhaseCrossEntropy}
  const LossModes: set<string> := {EarlyReward, LossCrossEntropy} + TwoPhaseModes

  /** The loss a trainer whose epoch counter is `currentEpoch` selects for a step called with
      `epochArg` (`None` or an epoch number). Only whether `epochArg` is `None` matters; the phase
      comes from `currentEpoch`. */
  function LossCriterion(epochArg: Option<int>, lossMode: string, currentEpoch: int, switchEpoch: int,
                         earlinessFactor: real, entropyFactor: real): (r: Dispatched)
    // `None` short-cuts every mode, even one that is not recognised
    ensures epochArg.None? ==> r == Call(CrossEntropy)
    // an unrecognised mode is an error exactly when the epoch is given
    ensures r == WrongLossMode <==> epochArg.Some? && lossMode !in LossModes
    // the phase has two values, so no two-phase branch falls through
    ensures !r.NoneReturned?
    // the two single-phase modes ignore the phase
    ensures epochArg.Some? && lossMode == EarlyReward ==> r == Call(EarlyLoss(earlinessFactor))
    ensures epochArg.Some? && lossMode == LossCrossEntropy ==> r == Call(CrossEntropy)
    // every two-phase mode uses cross-entropy exactly while in the classification phase
    ensures epochArg.Some? && lossMode in TwoPhaseModes ==>
              (r == Call(CrossEntropy) <==> currentEpoch < switchEpoch)
  {
    if epochArg.None? then Call(CrossEntropy)
    else if lossMode == EarlyReward then Call(EarlyLoss(earlinessFactor))
    else if lossMode == LossCrossEntropy then Call(CrossEntropy)
    else if lossMode == TwoPhaseEarlyReward then
      if PhaseAt(currentEpoch, switchEpoch) == ClassificationPhaseName then Call(CrossEntropy)
      else if PhaseAt(currentEpoch, switchEpoch) == EarlinessPhaseName then Call(EarlySimple(earlinessFactor))
      else NoneReturned
    else if lossMode == TwoPhaseLinearLoss then
      if PhaseAt(currentEpoch, switchEpoch) == ClassificationPhaseName then Call(CrossEntropy)
      else if PhaseAt(currentEpoch, switchEpoch) == EarlinessPhaseName then Call(EarlyLinear(earlinessFactor, entropyFactor))
      else NoneReturned
    else if lossMode == TwoPhaseCrossEntropy then
      if PhaseAt(currentEpoch, switchEpoch) == ClassificationPhaseName then Call(CrossEntropy)
      else if PhaseAt(currentEpoch, switchEpoch) == EarlinessPhaseName then Call(EarlyCrossEntropy(earlinessFactor, entropyFactor))
      else NoneReturned
    else WrongLossMode
  }

  /** In the earliness phase each two-phase mode switches to its own early loss, parameterised by
      the earliness factor and, for the linear and cross-entropy variants, the entropy factor. */
  lemma TwoPhaseEarlinessLosses(k: int, currentEpoch: int, switchEpoch: int, alpha: real, entropy: real)
    requires switchEpoch <= currentEpoch
    ensures LossCriterion(Some(k), TwoPhaseEarlyReward, currentEpoch, switchEpoch, alpha, entropy)
              == Call(EarlySimple(alpha))
    ensures LossCriterion(Some(k), TwoPhaseLinearLoss, currentEpoch, switchEpoch, alpha, entropy)
              == Call(EarlyLinear(alpha, entropy))
    ensures LossCriterion(Some(k), TwoPhaseCrossEntropy, currentEpoch, switchEpoch, alpha, entropy)
              == Call(EarlyCrossEntropy(alpha, entropy))
  {
  }

  /** The value of the epoch argument is never consulted: two steps of the same trainer that both
      pass an epoch get the same loss, whatever epochs they pass. */
  lemma EpochArgumentValueIgnored(k1: int, k2: int, lossMode: string, currentEpoch: int, switchEpoch: int,
                                  alpha: real, entropy: real)
    ensures LossCriterion(Some(k1), lossMode, currentEpoch, switchEpoch, alpha, entropy)
            == LossCriterion(Some(k2), lossMode, currentEpoch, switchEpoch, alpha, entropy)
  {
  }
}
