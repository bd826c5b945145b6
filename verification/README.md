# Step accumulation and drift-step selection in G4CMP

This project models, in Dafny, four small sequential pieces of the G4CMP
extension to Geant4. G4CMP simulates phonon and charge-carrier transport in
crystalline detectors.

- **Step accumulator** (`StepAccumulator`). A record that sums the total and
  non-ionizing energy deposits of consecutive steps of one track. It keeps the
  first step's start point and an energy-weighted running centroid of the step
  end points. `Clear` resets it. `Add` runs these checks in this order:
  1. an event rollover check;
  2. a track or particle rollover check;
  3. a zero-energy guard;
  4. first-step stamping;
  5. the centroid and sum update.

  The current event number is an argument of `Add`. `G4CMPStepAccumulator::Add` reads it from
  the run manager.
- **Secondary-production state** (`SecondaryProduction`). This covers the
  process's two configuration parameters and its map of accumulators keyed by
  track ID. It also covers the remembered event number used to drop those
  accumulators when a new event starts.
- **Step-length selection for drifting charges** (`DriftProcess`,
  `TimeStepper`). This covers:
  - the minimum-step clamp of the drift processes' post-step interaction
    length;
  - the energy step to a rate threshold;
  - the time stepper's maximum-step rule.

  `DBL_MAX` is the named constant `DblMax`, written out exactly. The
  nanometre floor `1e-9*m` is `MinEnergyStep`. Lengths are in the engine's
  internal unit, the millimetre, so `Meter` is 1000.
- **Luke-emission threshold** (`LukeEmission`). The threshold is the sound
  energy, or a multiple of it. The ratio is rounded up to a multiple of 25,
  with the extra "Zeno" bump. The model also keeps the final guard of the
  emission rate.

`G4double` is modelled as `real` and `G4ThreeVector` as `Vectors.Vec3`.
Host-engine lookups become plain parameters:
- the base-class interaction length;
- the configured minimum-step scale and maximum step;
- the lattice scattering lengths;
- the field magnitude;
- the kinetic energy;
- the rate model's threshold.

The model has no rounding. A division by zero in the C++ code is handled in
one of three ways:
- the centroid division is a finding, modelled both as written and
  corrected (see Findings);
- the threshold rule's division by a zero sound energy is modelled by its
  IEEE outcome, which is a threshold of 0;
- the rate's division by a zero sound wave number when the carrier's wave
  number is positive, and by a zero time step, is excluded by a
  precondition (see Left out). A zero sound wave number with a zero wave
  number, as for a carrier at rest, is answered by the guard.

`Add` and `Clear` are pure functions on an immutable record. The registry is
an immutable value with a `map<int, Accumulator>`, so each track ID has at
most one accumulator by construction.

## Model

| member | source | states |
|---|---|---|
| StepAccumulator.Clear | library/src/G4CMPStepAccumulator.cc:31-38 | Event, track and step IDs become -1. The step count becomes 0 and the particle becomes null. Both energies become 0. Start and end go to the origin. |
| StepAccumulator.ClearIdempotent | library/src/G4CMPStepAccumulator.cc:31-38 | Clearing twice equals clearing once. |
| StepAccumulator.AfterRollover | library/src/G4CMPStepAccumulator.cc:44-63 | The event check followed by the track check amounts to one rule. The record is cleared exactly when the stored event is set and differs from the current one, or when the stored track is set and the step's track or particle differs. |
| StepAccumulator.Add | library/src/G4CMPStepAccumulator.cc:43-96 | A zero-energy step leaves the post-rollover state unchanged. An accepted step adds 1 to the count and sets stepID to the track's step number. Its total and NIEL deposits are added to the post-rollover sums. On the first step since a clear it stamps event, track, particle and start. Later steps keep them. The new centroid times the new sum equals the old centroid times the old sum plus the step's weighted end point, when the new sum is non-zero. With a zero new sum the centroid is kept (see Findings). |
| StepAccumulator.RolloverForgetsHistory | library/src/G4CMPStepAccumulator.cc:45-63 | When either rollover check fires, the result equals adding the step to a freshly cleared accumulator. No old data is mixed in. |
| StepAccumulator.MismatchedZeroStepClears | library/src/G4CMPStepAccumulator.cc:45-71 | A zero-energy step with mismatched identity still clears the accumulator, because the guard comes after the rollover checks. |
| StepAccumulator.AddPreservesValid | library/src/G4CMPStepAccumulator.cc:73-83 | An accumulator with no recorded step is exactly the cleared record, before and after `Add`. |
| StepAccumulator.AddAsWritten | library/src/G4CMPStepAccumulator.cc:86-91 | The C++ centroid update divides by zero exactly when an accepted step's total deposit cancels the post-rollover sum. In every other case it agrees with `Add`. |
| StepAccumulator.AsWrittenDividesByZero | library/src/G4CMPStepAccumulator.cc:65-91 | On a cleared accumulator, a step with total deposit 0 and NIEL 1 passes the guard and makes `G4CMPStepAccumulator::Add` divide by zero. |
| StepAccumulator.AccumulateSums | library/src/G4CMPStepAccumulator.cc:73-95 | After a clear, fold in steps of one track and one particle with positive total deposits. The count equals the number of steps. `Edep` and `Eniel` equal the direct sums. Event, track, particle and start come from the first step, and stepID from the last. The end is the energy-weighted average Σeᵢpᵢ/Σeᵢ of the end points. |
| StepAccumulator.SumsForAcceptedSteps | library/src/G4CMPStepAccumulator.cc:66-95 | After a clear, fold in steps of one track and one particle that pass the zero-energy guard, including steps with a non-positive total deposit and positive NIEL. The count equals the number of steps. `Edep` and `Eniel` equal the direct sums. Event, track, particle and start come from the first step, and stepID from the last. |
| StepAccumulator.ThreeStepScenario | library/src/G4CMPStepAccumulator.cc:85-95 | Three steps of track 7 deposit 1, 2 and 3 at end points 0, 1 and 3 along the axis. The result is a total of 6, a count of 3 and a centroid at 11/6 along the axis. |
| StepAccumulator.AccumulateWeighted | library/src/G4CMPStepAccumulator.cc:85-95 | Inductive form of the centroid property: the centroid times the summed deposit equals the weighted sum of the step end points. |
| SecondaryProduction.SetProcessSecondariesFirst | library/include/G4CMPSecondaryProduction.hh:57-58 | After setting the flag, the getter returns the value set. Nothing else in the process state changes. |
| SecondaryProduction.ProcessSecondariesFirst | library/include/G4CMPSecondaryProduction.hh:58 | The getter returns the stored flag: setting the flag to what it reads leaves the whole process state unchanged. |
| SecondaryProduction.SecondariesFirstRoundTrip | library/include/G4CMPSecondaryProduction.hh:57-58 | Setting then reading returns the value set, and the last setting wins. |
| SecondaryProduction.SetCombiningStepLength | library/include/G4CMPSecondaryProduction.hh:61 | After setting the length, a getter that has the length's type returns it. Nothing else changes. |
| SecondaryProduction.GetCombiningStepLengthAsWritten | library/include/G4CMPSecondaryProduction.hh:62 | The declared getter returns whether the stored length is non-zero, not the length. |
| SecondaryProduction.CombiningStepLengthAsWrittenLoses | library/include/G4CMPSecondaryProduction.hh:61-62 | A length of 0.5 reads back through the declared boolean getter as 1.0. |
| SecondaryProduction.CombiningStepLengthRoundTrip | library/include/G4CMPSecondaryProduction.hh:61-62 | The corrected getter returns exactly the value set. The declared getter returns whether that value is non-zero. |
| SecondaryProduction.AccumulatorFor | library/include/G4CMPSecondaryProduction.hh:92-94 | Looking up a track returns its stored accumulator. If the track has none, a cleared accumulator is inserted for it. Other entries, the event number and both configuration parameters are kept. |
| SecondaryProduction.ClearOnNewEvent | library/include/G4CMPSecondaryProduction.hh:95 | A different event number empties the map and is remembered. The same event number leaves the state unchanged. |
| SecondaryProduction.FreshAfterNewEvent | library/include/G4CMPSecondaryProduction.hh:92-95 | After a change of event, every track gets a cleared accumulator, even one used in the previous event. |
| SecondaryProduction.Accumulate | library/include/G4CMPSecondaryProduction.hh:92-95 | A change of event always empties the map and is remembered. A step that `DoAddStep` rejects changes nothing else. For an accepted step, the track's entry becomes `Add` applied to its previous accumulator in this event, or to a cleared one. Within an event, other tracks' entries are unchanged. Across events, only this track remains. Both configuration parameters are kept. |
| SecondaryProduction.RegistryNeverRollsOverEvent | library/include/G4CMPSecondaryProduction.hh:92-95 | In a valid registry, the accumulator's own event check never fires. Its track check fires only when the particle definition changes. |
| SecondaryProduction.AccumulatePreservesValid | library/include/G4CMPSecondaryProduction.hh:92-95 | Each stored accumulator stays reachable. One that holds data stays filed under its own track ID and the current event. |
| DriftProcess.EnergyStep | library/src/G4CMPVDriftProcess.cc:127-143 | The result is `DBL_MAX` with no field or when the energy is already above the target. Otherwise it is a non-negative distance r, zero exactly at the target. r times the field equals 1.2 times the missing energy. |
| DriftProcess.EnergyStepShrinksWithEnergy | library/src/G4CMPVDriftProcess.cc:141-142 | In a fixed field, a carrier closer to the target energy never gets a longer energy step. |
| DriftProcess.EnergyStepLimit | library/src/G4CMPVDriftProcess.cc:84-87 | With no rate model the limit is `DBL_MAX`. Otherwise it is the energy step to the model's threshold, floored at 1e-9 m. |
| DriftProcess.StepLength | library/src/G4CMPVDriftProcess.cc:70-96 | The result is never below the minimum step: the scale times the electron scattering length for electrons, or the hole length otherwise. It is never above the base length or the energy-step limit unless raised to that minimum. It is one of the three lengths. |
| DriftProcess.StepLengthIsClamp | library/src/G4CMPVDriftProcess.cc:94-95 | The result is max(minLength, min(trueLength, energyStepMFP)), so it never exceeds max(minLength, trueLength). |
| DriftProcess.NoRateModelKeepsBaseLength | library/src/G4CMPVDriftProcess.cc:86-95 | With no rate model and a finite base length, the result is max(minLength, trueLength). |
| TimeStepper.GetMeanFreePath | library/src/G4CMPTimeStepper.cc:74-87 | The force condition is always `NotForced`. The length is the configured maximum step when that is positive, and `DBL_MAX` otherwise. It is always strictly positive and at least the configured value. |
| TimeStepper.MeanFreePathIsFixedPoint | library/src/G4CMPTimeStepper.cc:86 | Feeding the result back as the configured maximum returns it unchanged. |
| LukeEmission.Ceil | library/src/G4CMPLukeEmissionRate.cc:99 | Ceiling: the least integer not below the argument. |
| LukeEmission.FMod | library/src/G4CMPLukeEmissionRate.cc:98 | C's `fmod` for a positive divisor: the remainder has the sign of the dividend and is smaller than the divisor in magnitude. The dividend minus the remainder is the divisor times the quotient truncated toward zero. |
| LukeEmission.FModOfStep | library/src/G4CMPLukeEmissionRate.cc:98 | The remainder by 25 has the sign of the ratio and is smaller than 25 in magnitude. Removing it leaves a whole multiple of 25. |
| LukeEmission.ScaledRatio | library/src/G4CMPLukeEmissionRate.cc:95-99 | For a ratio above 1, the scaled ratio is a positive multiple of 25 and at least the ratio. With a remainder ≥ 0.95 it is at least the ratio plus 25 (the Zeno bump). Otherwise it is below the ratio plus 25. |
| LukeEmission.Threshold | library/src/G4CMPLukeEmissionRate.cc:94-106 | The result is 0 or strictly above `Eabove`, and never below `Esound` when non-zero. A zero `Esound` gives 0, which is the IEEE outcome of every path through the rule. At a ratio ≤ 1 it is `Esound` if `Eabove < Esound` and 0 otherwise. Above that it is 0 or `Esound` times the scaled ratio. |
| LukeEmission.ThresholdVanishesAtMultiples | library/src/G4CMPLukeEmissionRate.cc:96-106 | For a ratio above 1, the threshold is 0 exactly when the ratio is itself a multiple of 25. |
| LukeEmission.ExactMultipleHasNoThreshold | library/src/G4CMPLukeEmissionRate.cc:97-106 | At exactly 25 times the sound energy the rule reports no threshold. |
| LukeEmission.SoundEnergy | library/src/G4CMPLukeEmissionRate.cc:81-86 | For electrons the sound energy is the valley-mapped sound speed. For holes it is the track's kinetic energy. |
| LukeEmission.HoleThresholdAtOwnEnergy | library/src/G4CMPLukeEmissionRate.cc:82-106 | For holes `Esound` is the track's kinetic energy, so at its own energy a hole has threshold 0. A moving hole's drift energy-step limit then stays `DBL_MAX`, as does a hole at rest with no field. A hole at rest in a field gets an energy step of 0, raised to the 1e-9 m floor. |
| LukeEmission.Rate | library/src/G4CMPLukeEmissionRate.cc:68-69 | The rate is 0 exactly when kmag ≤ kSound. Otherwise, the rate times the carrier time step at Mach number kmag/kSound is 1. |

## Left out

- `Print`, all `G4cout`/`G4cerr` logging and the thread-local "first" flag of the time stepper are output only and are not modelled.
- Thread-local ownership and concurrency are not modelled. One process state is modelled, sequentially.
- The bodies defined in G4CMPSecondaryProduction.cc are not modelled:
  - `DoAddStep`, `HasEnergy`, `DoSecondaries`, `RandomIndex`;
  - `AddSecondaries`, `GeneratePositions`, `SurfaceClearance`;
  - `IsApplicable`, `PostStepDoIt`, `LoadDataForTrack`, `GetMeanFreePath`.
  - `DoAddStep`'s verdict is a boolean argument of `SecondaryProduction.Accumulate`. What the process does with a step it does not combine is not modelled.
- `SecondaryProduction.Accumulate`, `SecondaryProduction.ClearOnNewEvent` and `SecondaryProduction.AccumulatorFor`:
  - They follow the header's declared members and comments, plus the `std::map` subscript rule, which inserts a default (cleared) accumulator.
  - How `PostStepDoIt` sequences them is not modelled.
  - The process constructor's initial values are not modelled.
- `FillParticleChange` and the time stepper's `PostStepDoIt` are not modelled. They are lattice effective-mass maps and particle-change plumbing.
- The body of the emission `Rate` before its final line is not modelled. That covers lattice k-space maps and the relativistic square root. The carrier time step is a function parameter.
- LukeEmission.Rate requires `kSound >= 0`, and `kSound > 0` with a non-zero carrier time step whenever `kmag > kSound`. With `kSound == 0` and `kmag > 0`, the Mach number passed to the time-step model is an IEEE infinity. That model is outside this one, and the reals cannot represent its argument.
- LukeEmission.Threshold requires `Esound >= 0`. A sound energy is a kinetic energy or a speed mapped to one, so it is never negative.
- LukeEmission.HoleThresholdAtOwnEnergy requires a non-negative kinetic energy, as every track's kinetic energy is.
- The electron sound-energy mapping, the field lookup, the kinetic-energy lookup and the base-class interaction length are parameters. They are foreign calls into the lattice, the field and the engine.
- StepAccumulator.AccumulateSums states the centroid only for steps with positive total deposits. With zero or negative weights, the weighted average can be undefined partway through a run. `StepAccumulator.SumsForAcceptedSteps` states the count, sums, identity and start for every step the guard accepts.
- Floating-point rounding is not modelled: all arithmetic is exact over the reals.
- The step counter is an unbounded `nat`; the width and overflow of its C++ integer type are not modelled.
- The main program, the configuration manager's environment parsing, the geometry wrappers, the Bogoliubov particle registration, the partition-data hit record and the channeling declarations are not modelled.

## Findings

| source | as written | input that shows it | evidently intended | confidence | as-written member | corrected member |
|---|---|---|---|---|---|---|
| library/src/G4CMPStepAccumulator.cc:66-91 | The zero-energy guard accepts a step whose total deposit is ≤ 0 when its NIEL is > 0. The centroid then divides by `Edep+stepEdep`, which can be 0. | A cleared accumulator and a step with total deposit 0 and NIEL 1 eV. The divisor is 0 and the centroid becomes NaN. | Only a non-zero weight moves the centroid. The guard exists to protect this division. With a zero combined weight, `Add` leaves the centroid where it was. | medium, not executed. The engine's total deposit normally includes NIEL, so such steps should not arise from the engine itself. | StepAccumulator.AddAsWritten | StepAccumulator.Add |
| library/include/G4CMPSecondaryProduction.hh:62 | `GetCombiningStepLength` is declared `G4bool`, so it returns whether the stored length is non-zero. | `SetCombiningStepLength(0.5)` then `GetCombiningStepLength()` gives `true`, which a caller reads as a length of 1.0. | The getter returns the stored `G4double` length. | high, not executed | SecondaryProduction.GetCombiningStepLengthAsWritten | SecondaryProduction.CombiningStepLength |
