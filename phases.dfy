/** The two training phases and how the current one is derived from the epoch counter. */
module Phases {
  const ClassificationPhaseName: string := "classification"
  const EarlinessPhaseName: string := "earliness"

  /** The name of the phase a trainer at `epoch` is in: classification strictly before
      `switchEpoch`, earliness from `switchEpoch` on. The phase is never stored. */
  function PhaseAt(epoch: int, switchEpoch: int): (name: string)
    ensures name == ClassificationPhaseName <==> epoch < switchEpoch
    ensures name == EarlinessPhaseName <==> switchEpoch <= epoch
  {
    if epoch < switchEpoch then ClassificationPhaseName else EarlinessPhaseName
  }
}
