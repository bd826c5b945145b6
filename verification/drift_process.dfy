/** Step-length selection for drifting charge carriers: the minimum-step clamp
    applied after the base interaction length, and the energy step, the
    distance over which the field raises the carrier to a rate threshold.
    Lengths are in the engine's internal unit, the millimetre. */
module DriftProcess {
  import opened Wrappers
  import opened Carriers

  /** The largest finite double, which the drift processes use as "no limit". */
  const DblMax: real := 179769313486231570814527423731704356798070567525844996598917476803157260780028538760589558632766878171540458953514382464234321326889464182768467546703537516986049910576551282076245490090389328944075868508455133942304583236903222948165808559332123348274797826204144723168738177180919299881250404026184124858368.0

  /** One metre in the internal length unit. */
  const Meter: real := 1000.0

  /** The floor put under the energy step: a nanometre. */
  const MinEnergyStep: real := 0.000000001 * Meter

  /** Safety factor on the energy step, for electron valley systematics. */
  const ValleyMargin: real := 1.2

  /** The lattice's carrier scattering lengths. */
  datatype Lattice = Lattice(electronScatter: real, holeScatter: real)

  function ScatterLength(c: Carrier, lattice: Lattice): real {
    if c == Electron then lattice.electronScatter else lattice.holeScatter
  }

  function Min(a: real, b: real): real { if a < b then a else b }
  function Max(a: real, b: real): real { if a < b then b else a }

  /** Distance to reach `efinal` from `ekin` in a field of magnitude `emag`:
      unlimited without a field or when already above the threshold,
      otherwise the distance over which the field supplies the missing energy,
      stretched by the valley margin. */
  function EnergyStep(efinal: real, emag: real, ekin: real): (r: real)
    ensures emag <= 0.0 ==> r == DblMax
    ensures emag > 0.0 && ekin > efinal ==> r == DblMax
    ensures emag > 0.0 && ekin <= efinal ==>
      && r >= 0.0
      && (r == 0.0 <==> ekin == efinal)
      && r * emag == ValleyMargin * (efinal - ekin)
  {
    if emag <= 0.0 then DblMax
    else if ekin > efinal then DblMax
    else ValleyMargin * (efinal - ekin) / emag
  }

  /** A carrier closer to the threshold, in the same field, gets a step no
      longer than one further below it. */
  lemma EnergyStepShrinksWithEnergy(efinal: real, emag: real, ekin1: real, ekin2: real)
    requires emag > 0.0 && ekin1 <= ekin2 <= efinal
    ensures EnergyStep(efinal, emag, ekin2) <= EnergyStep(efinal, emag, ekin1)
  {
    var d1 := EnergyStep(efinal, emag, ekin1);
    var d2 := EnergyStep(efinal, emag, ekin2);
    assert (d1 - d2) * emag == ValleyMargin * (ekin2 - ekin1);
    NonNegativeQuotient(d1 - d2, emag);
  }

  lemma NonNegativeQuotient(x: real, m: real)
    requires m > 0.0 && x * m >= 0.0
    ensures x >= 0.0
  {
  }

  /** The energy-step limit: unlimited without a rate model, otherwise the
      energy step to the model's threshold, never below a nanometre. The
      rate model's threshold at the carrier's energy is `threshold`. */
  function EnergyStepLimit(threshold: Option<real>, emag: real, ekin: real): (r: real)
    ensures threshold.None? ==> r == DblMax
    ensures r >= MinEnergyStep
    ensures threshold.Some? ==>
      var d := EnergyStep(threshold.value, emag, ekin);
      (d > MinEnergyStep ==> r == d) && (d <= MinEnergyStep ==> r == MinEnergyStep)
  {
    var mfp := if threshold.Some? then EnergyStep(threshold.value, emag, ekin) else DblMax;
    if mfp <= MinEnergyStep then MinEnergyStep else mfp
  }

  /** The post-step interaction length of a drift process: the base length
      `trueLength`, shortened to the energy-step limit, and then raised to
      the minimum step (the configured scale times the carrier's scattering
      length) so that tracks cannot get stuck. */
  function StepLength(trueLength: real, minStepScale: real, c: Carrier, lattice: Lattice,
                      threshold: Option<real>, emag: real, ekin: real): (r: real)
    ensures var lo := minStepScale * ScatterLength(c, lattice);
      var mfp := EnergyStepLimit(threshold, emag, ekin);
      // never below the minimum step
      && r >= lo
      // never above either candidate unless raised to the minimum
      && (r <= trueLength || r == lo)
      && (r <= mfp || r == lo)
      // the result is one of the three lengths, and the minimum is used only
      // when it reaches the shorter candidate
      && (r == trueLength || r == mfp || r == lo)
      && (r == lo ==> lo >= trueLength || lo >= mfp)
  {
    var minLength := minStepScale * ScatterLength(c, lattice);
    var mfp := EnergyStepLimit(threshold, emag, ekin);
    var limited := if mfp < trueLength then mfp else trueLength;
    if minLength < limited then limited else minLength
  }

  /** The selected length is the larger of the minimum step and the shorter
      candidate, so it never exceeds the larger of the minimum and the base
      length. */
  lemma StepLengthIsClamp(trueLength: real, minStepScale: real, c: Carrier, lattice: Lattice,
                          threshold: Option<real>, emag: real, ekin: real)
    ensures var lo := minStepScale * ScatterLength(c, lattice);
      var r := StepLength(trueLength, minStepScale, c, lattice, threshold, emag, ekin);
      && r == Max(lo, Min(trueLength, EnergyStepLimit(threshold, emag, ekin)))
      && r <= Max(lo, trueLength)
  {
  }

  /** With no rate model the energy step never limits a base length that is
      itself finite. */
  lemma NoRateModelKeepsBaseLength(trueLength: real, minStepScale: real, c: Carrier,
                                   lattice: Lattice, emag: real, ekin: real)
    requires trueLength <= DblMax
    ensures StepLength(trueLength, minStepScale, c, lattice, None, emag, ekin)
            == Max(minStepScale * ScatterLength(c, lattice), trueLength)
  {
  }
}
