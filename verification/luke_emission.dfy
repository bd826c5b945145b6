/** The Luke-phonon emission rate's threshold rule and the final guard of its
    rate. Thresholds sit at the sound-speed energy, or at multiples of it
    rounded up to the next multiple of 25 with a bump of one more multiple
    (the "Zeno" bump) unless the ratio lies just above a multiple. */
module LukeEmission {
  import opened Carriers
  import opened Wrappers
  import DriftProcess

  /** Spacing of the pseudo-thresholds, in units of the sound energy. */
  const EStep: real := 25.0

  /** Remainders at or above this get the extra multiple of EStep. */
  const ZenoMargin: real := 0.95

  /** Smallest integer not below `x` (C's `ceil`). */
  function Ceil(x: real): (r: int)
    ensures r as real >= x && (r as real) - 1.0 < x
  {
    -((-x).Floor)
  }

  /** Integer part of `x`, rounding toward zero. */
  function Trunc(x: real): (r: int)
    ensures x >= 0.0 ==> r as real <= x < (r as real) + 1.0
    ensures x <= 0.0 ==> (r as real) - 1.0 < x <= r as real
  {
    if x >= 0.0 then x.Floor else -((-x).Floor)
  }

  /** C's `fmod`: the remainder of `x / y` with the sign of `x`, smaller than
      `y` in magnitude, leaving a whole multiple of `y` (the quotient rounded
      toward zero). */
  function FMod(x: real, y: real): (r: real)
    requires y > 0.0
    ensures x >= 0.0 ==> 0.0 <= r < y
    ensures x <= 0.0 ==> -y < r <= 0.0
    ensures (x - r) / y == Trunc(x / y) as real
  {
    RemainderBounds(x, y);
    x - (Trunc(x / y) as real) * y
  }

  /** The remainder by the threshold spacing keeps the sign of the ratio,
      stays below the spacing in magnitude, and leaves a whole multiple. */
  lemma FModOfStep(x: real)
    ensures x >= 0.0 ==> 0.0 <= FMod(x, EStep) < EStep
    ensures x <= 0.0 ==> -EStep < FMod(x, EStep) <= 0.0
    ensures IsMultipleOfStep(x - FMod(x, EStep))
  {
  }

  /** `v` is a whole multiple of the threshold spacing. */
  predicate IsMultipleOfStep(v: real) {
    (v / EStep).Floor as real == v / EStep
  }

  /** The ratio of the energy above threshold to the sound energy, once it
      exceeds one, after the Zeno bump and the rounding up to a multiple of
      the spacing. */
  function ScaledRatio(ratio: real): (s: real)
    requires ratio > 1.0
    ensures IsMultipleOfStep(s) && s >= EStep
    ensures s >= ratio
    ensures FMod(ratio, EStep) >= ZenoMargin ==> s >= ratio + EStep
    ensures FMod(ratio, EStep) < ZenoMargin ==> s < ratio + EStep
    ensures s < ratio + 2.0 * EStep
  {
    var bumped := ratio + (if FMod(ratio, EStep) < ZenoMargin then 0.0 else EStep);
    var c := Ceil(bumped / EStep);
    assert (c as real) * EStep / EStep == c as real;
    (c as real) * EStep
  }

  /** The next threshold above `eabove` for sound energy `esound`, or 0 when
      there is none. A zero sound energy has no threshold: in IEEE arithmetic
      the ratio is then NaN or an infinity, and every path through the rule
      returns 0. */
  function Threshold(eabove: real, esound: real): (r: real)
    requires esound >= 0.0
    ensures r == 0.0 || r > eabove
    ensures r != 0.0 ==> r >= esound
    ensures esound == 0.0 ==> r == 0.0
    ensures esound > 0.0 && eabove / esound <= 1.0 ==>
      (eabove < esound ==> r == esound) && (eabove >= esound ==> r == 0.0)
    ensures esound > 0.0 && eabove / esound > 1.0 ==>
      r == 0.0 || r == esound * ScaledRatio(eabove / esound)
  {
    if esound == 0.0 then 0.0
    else
      var ratio := eabove / esound;
      var scaled := if ratio > 1.0 then esound * ScaledRatio(ratio) else esound;
      if eabove < scaled then scaled else 0.0
  }

  /** Above the sound energy, the rule reports no threshold exactly when the
      ratio to the sound energy is itself a multiple of the spacing. */
  lemma {:induction false} ThresholdVanishesAtMultiples(eabove: real, esound: real)
    requires esound > 0.0 && eabove / esound > 1.0
    ensures Threshold(eabove, esound) == 0.0 <==> IsMultipleOfStep(eabove / esound)
  {
    var ratio := eabove / esound;
    var s := ScaledRatio(ratio);
    assert eabove == ratio * esound;
    assert eabove < s * esound <==> ratio < s by {
      ScaleLess(ratio, s, esound);
    }
    if IsMultipleOfStep(ratio) {
      var k := (ratio / EStep).Floor;
      assert ratio == (k as real) * EStep;
      assert Trunc(ratio / EStep) == k;
      assert FMod(ratio, EStep) == 0.0;
      assert Ceil(ratio / EStep) == k;
      assert s == ratio;
    } else {
      assert s != ratio;
    }
  }

  /** The remainder left by the truncated quotient lies strictly between
      `-y` and `y`, on the side of `x`. */
  lemma RemainderBounds(x: real, y: real)
    requires y > 0.0
    ensures x >= 0.0 ==> 0.0 <= x - (Trunc(x / y) as real) * y < y
    ensures x <= 0.0 ==> -y < x - (Trunc(x / y) as real) * y <= 0.0
  {
    var t := x / y;
    var q := Trunc(t) as real;
    QuotientSign(x, y);
    assert t * y == x;
    if x >= 0.0 {
      RemainderBelow(x, y, t, q);
    }
    if x <= 0.0 {
      RemainderBelow(-x, y, -t, -q);
    }
  }

  /** With the exact quotient `t` and a truncation `q` no more than one
      below it named, the remainder lies in [0, y). */
  lemma RemainderBelow(x: real, y: real, t: real, q: real)
    requires y > 0.0 && t * y == x
    requires 0.0 <= t - q < 1.0
    ensures 0.0 <= x - q * y < y
  {
    var d := t - q;
    FractionScaled(d, y);
    assert d * y < y;
    assert d * y == x - q * y;
  }

  /** A fraction of `y` in [0, 1) scales to a length in [0, y). */
  lemma FractionScaled(d: real, y: real)
    requires y > 0.0 && 0.0 <= d < 1.0
    ensures 0.0 <= d * y && d * y < y
  {
    assert y - d * y == (1.0 - d) * y;
  }

  lemma QuotientSign(x: real, y: real)
    requires y > 0.0
    ensures x >= 0.0 ==> x / y >= 0.0
    ensures x <= 0.0 ==> x / y <= 0.0
  {
    assert (x / y) * y == x;
    ScaleLess(x / y, 0.0, y);
    ScaleLess(0.0, x / y, y);
  }

  lemma ScaleLess(a: real, b: real, k: real)
    requires k > 0.0
    ensures a * k < b * k <==> a < b
  {
    if a < b {
      assert (b - a) * k > 0.0;
    } else {
      assert (a - b) * k >= 0.0;
    }
  }

  /** At exactly 25 times the sound energy there is no threshold. */
  lemma ExactMultipleHasNoThreshold()
    ensures Threshold(25.0, 1.0) == 0.0
  {
    ThresholdVanishesAtMultiples(25.0, 1.0);
  }

  /** The sound energy: mapped from the sound speed through the valley for
      electrons, the track's kinetic energy for holes. */
  function SoundEnergy(c: Carrier, electronEsound: real, trackEkin: real): (r: real)
    ensures c == Electron ==> r == electronEsound
    ensures c == Hole ==> r == trackEkin
  {
    if c == Electron then electronEsound else trackEkin
  }

  /** A hole asked for its threshold at its own kinetic energy has none. When
      it moves, the energy step of a drift process then never limits its
      step; a hole at rest in a field gets the energy step to zero energy,
      which is zero and is raised to the nanometre floor. */
  lemma HoleThresholdAtOwnEnergy(ekin: real, electronEsound: real, emag: real)
    requires ekin >= 0.0
    ensures Threshold(ekin, SoundEnergy(Hole, electronEsound, ekin)) == 0.0
    ensures ekin > 0.0 || emag <= 0.0 ==>
      DriftProcess.EnergyStepLimit(
        Some(Threshold(ekin, SoundEnergy(Hole, electronEsound, ekin))), emag, ekin)
      == DriftProcess.DblMax
    ensures ekin == 0.0 && emag > 0.0 ==>
      DriftProcess.EnergyStepLimit(
        Some(Threshold(ekin, SoundEnergy(Hole, electronEsound, ekin))), emag, ekin)
      == DriftProcess.MinEnergyStep
  {
  }

  /** The final guard of the emission rate: no emission at or below the
      sound-speed wave number, otherwise the inverse of the carrier time step
      at that Mach number. The time step model is `timeStep`. A carrier at
      rest has a zero wave number and a zero sound wave number, and is
      answered by the guard without any division. */
  function Rate(kmag: real, kSound: real, l0: real, timeStep: (real, real) -> real): (r: real)
    requires kSound >= 0.0
    requires kmag > kSound ==> kSound > 0.0 && timeStep(kmag / kSound, l0) != 0.0
    ensures r == 0.0 <==> kmag <= kSound
    ensures kmag > kSound ==> r * timeStep(kmag / kSound, l0) == 1.0
  {
    if kmag <= kSound then 0.0 else 1.0 / timeStep(kmag / kSound, l0)
  }
}
