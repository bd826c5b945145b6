/** The time stepper's mean free path: the configured maximum step length,
    or "no limit" when none is configured. */
module TimeStepper {
  import opened DriftProcess

  /** The engine's force conditions for a discrete process. */
  datatype ForceCondition =
    | InActivated | Forced | NotForced | Conditionally | ExclusivelyForced | StronglyForced

  /** The mean free path for a configured maximum step `maxStep`, with the
      force condition the call sets. */
  function GetMeanFreePath(maxStep: real): (r: (real, ForceCondition))
    ensures r.1 == NotForced
    ensures r.0 > 0.0
    ensures maxStep > 0.0 ==> r.0 == maxStep
    ensures maxStep <= 0.0 ==> r.0 == DblMax
    ensures r.0 >= maxStep
  {
    (if maxStep > 0.0 then maxStep else DblMax, NotForced)
  }

  /** Configuring the returned length as the maximum step returns it again:
      the result is always a configured, positive limit. */
  lemma MeanFreePathIsFixedPoint(maxStep: real)
    ensures GetMeanFreePath(GetMeanFreePath(maxStep).0) == GetMeanFreePath(maxStep)
  {
  }
}
