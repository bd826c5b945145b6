/** The step accumulator: a record that sums the energy deposited by
    consecutive steps of one track and follows an energy-weighted centroid of
    the step end points. `Add` is a pure transition on that record; the
    current event number, which `G4CMPStepAccumulator::Add` fetches from the
    run manager, is an argument of the step. */
module StepAccumulator {
  import opened Wrappers
  import opened Vectors

  /** Particle definition reference; `Null` is the cleared pointer. */
  datatype ParticleDef = Null | Species(name: string)

  /** The view of one simulation step that the accumulator reads. */
  datatype Step = Step(
    trackID: int,          // the step's track identifier
    particle: ParticleDef, // the track's particle definition
    stepNumber: int,       // the track's current step number
    totalEdep: real,       // total energy deposit of the step
    nielEdep: real,        // non-ionizing part of the deposit
    prePos: Vec3,          // pre-step position
    postPos: Vec3          // post-step position
  )

  datatype Accumulator = Accumulator(
    eventID: int,
    trackID: int,
    stepID: int,
    nsteps: nat,
    pd: ParticleDef,
    edep: real,   // summed total energy deposit
    eniel: real,  // summed non-ionizing energy deposit
    start: Vec3,  // pre-step position of the first step since the last clear
    end: Vec3     // energy-weighted centroid of the step end points
  )

  /** The reset state: identifiers unset (-1), nothing summed, both ends at
      the origin. */
  const Cleared: Accumulator :=
    Accumulator(-1, -1, -1, 0, Null, 0.0, 0.0, Origin, Origin)

  /** Reset the accumulator for a new track. */
  function Clear(a: Accumulator): (r: Accumulator)
    ensures r.eventID == -1 && r.trackID == -1 && r.stepID == -1
    ensures r.nsteps == 0 && r.pd == Null
    ensures r.edep == 0.0 && r.eniel == 0.0
    ensures r.start == Origin && r.end == Origin
  {
    Cleared
  }

  /** Clearing twice is the same as clearing once. */
  lemma ClearIdempotent(a: Accumulator)
    ensures Clear(Clear(a)) == Clear(a)
  {
  }

  /** A reachable accumulator: with no step recorded it is exactly the reset
      state. */
  predicate Valid(a: Accumulator) {
    a.nsteps == 0 ==> a == Cleared
  }

  /** The stored event is set and differs from the current one. */
  predicate EventRollover(a: Accumulator, evt: int) {
    a.eventID >= 0 && a.eventID != evt
  }

  /** The stored track is set and the step belongs to another track or to
      another particle definition. */
  predicate TrackRollover(a: Accumulator, s: Step) {
    a.trackID >= 0 && (a.trackID != s.trackID || a.pd != s.particle)
  }

  /** Either rollover check fires on the accumulator as given. */
  predicate RollsOver(a: Accumulator, s: Step, evt: int) {
    EventRollover(a, evt) || TrackRollover(a, s)
  }

  /** The event check, then the track check on what the event check left. */
  function AfterRollover(a: Accumulator, s: Step, evt: int): (r: Accumulator)
    ensures r == if RollsOver(a, s, evt) then Clear(a) else a
  {
    var a1 := if EventRollover(a, evt) then Clear(a) else a;
    if TrackRollover(a1, s) then Clear(a1) else a1
  }

  /** The zero-energy guard: a step is accepted unless both its total and its
      non-ionizing deposit are non-positive. */
  predicate Deposits(s: Step) {
    !(s.totalEdep <= 0.0 && s.nielEdep <= 0.0)
  }

  /** Stamp identity and start point on the first step since a clear. */
  function Stamp(b: Accumulator, s: Step, evt: int): Accumulator {
    if b.nsteps == 0 then
      b.(eventID := evt, trackID := s.trackID, pd := s.particle, start := s.prePos)
    else b
  }

  /** The running centroid update, from the pre-update weight `w`. */
  function Centroid(end: Vec3, w: real, post: Vec3, e: real): Vec3
    requires w + e != 0.0
  {
    Div(Plus(Scale(end, w), Scale(post, e)), w + e)
  }

  /** Fold one step into the accumulator. The centroid is moved only when
      the combined weight is non-zero; with a zero combined weight it stays
      where it was (see AddAsWritten for the division that
      `G4CMPStepAccumulator::Add` performs). */
  function Add(a: Accumulator, s: Step, evt: int): (r: Accumulator)
    // a rejected step leaves the state the rollover checks produced
    ensures !Deposits(s) ==> r == (if RollsOver(a, s, evt) then Clear(a) else a)
    ensures !Deposits(s) && !RollsOver(a, s, evt) ==> r == a
    // an accepted step is counted once, and its deposits are summed onto
    // whatever survived the rollover checks
    ensures Deposits(s) ==>
      var b := if RollsOver(a, s, evt) then Clear(a) else a;
      && r.nsteps == b.nsteps + 1
      && r.stepID == s.stepNumber
      && r.edep == b.edep + s.totalEdep
      && r.eniel == b.eniel + s.nielEdep
      // the first step since a clear records identity and start point
      && (b.nsteps == 0 ==>
            r.eventID == evt && r.trackID == s.trackID
            && r.pd == s.particle && r.start == s.prePos)
      // later steps never change identity or start point
      && (b.nsteps > 0 ==>
            r.eventID == b.eventID && r.trackID == b.trackID
            && r.pd == b.pd && r.start == b.start)
      // the centroid weighted by the new sum is the old weighted centroid
      // plus this step's weighted end point
      && (r.edep != 0.0 ==>
            Scale(r.end, r.edep) == Plus(Scale(b.end, b.edep), Scale(s.postPos, s.totalEdep)))
      && (r.edep == 0.0 ==> r.end == b.end)
  {
    var b := AfterRollover(a, s, evt);
    if !Deposits(s) then b
    else
      var c := Stamp(b, s, evt);
      var w := c.edep + s.totalEdep;
      var end' := if w != 0.0 then Centroid(c.end, c.edep, s.postPos, s.totalEdep) else c.end;
      c.(nsteps := c.nsteps + 1, stepID := s.stepNumber, end := end',
         edep := w, eniel := c.eniel + s.nielEdep)
  }

  /** The update as `G4CMPStepAccumulator::Add` writes it, where a zero
      combined weight divides by zero. `None` stands for that path as a
      whole: in IEEE arithmetic the centroid's components become NaN where
      the numerator is zero and infinite where it is not, while the step
      count, step number and both energy sums are still updated as in `Add`;
      the model keeps none of that record. */
  function AddAsWritten(a: Accumulator, s: Step, evt: int): (r: Option<Accumulator>)
    ensures r.None? <==>
      Deposits(s) && AfterRollover(a, s, evt).edep + s.totalEdep == 0.0
    ensures r.Some? ==> r.value == Add(a, s, evt)
  {
    var b := AfterRollover(a, s, evt);
    if !Deposits(s) then Some(b)
    else
      var c := Stamp(b, s, evt);
      if c.edep + s.totalEdep == 0.0 then None
      else
        Some(c.(nsteps := c.nsteps + 1, stepID := s.stepNumber,
                end := Centroid(c.end, c.edep, s.postPos, s.totalEdep),
                edep := c.edep + s.totalEdep, eniel := c.eniel + s.nielEdep))
  }

  /** A step carrying only non-ionizing energy passes the zero-energy guard
      and, on a cleared accumulator, makes `G4CMPStepAccumulator::Add`
      divide by zero. */
  lemma AsWrittenDividesByZero()
    ensures var s := Step(1, Species("e-"), 1, 0.0, 1.0, Origin, Vec3(0.0, 0.0, 1.0));
      Deposits(s) && AddAsWritten(Cleared, s, 0).None?
  {
  }

  /** Once a rollover fires, the result is what the step would give on a
      freshly cleared accumulator: no mixture of old and new data. */
  lemma RolloverForgetsHistory(a: Accumulator, s: Step, evt: int)
    requires RollsOver(a, s, evt)
    ensures Add(a, s, evt) == Add(Clear(a), s, evt)
  {
  }

  /** A zero-energy step whose identity does not match still clears. */
  lemma MismatchedZeroStepClears(a: Accumulator, s: Step, evt: int)
    requires RollsOver(a, s, evt) && !Deposits(s)
    ensures Add(a, s, evt) == Cleared
  {
  }

  /** `Add` keeps the accumulator reachable. */
  lemma AddPreservesValid(a: Accumulator, s: Step, evt: int)
    requires Valid(a)
    ensures Valid(Add(a, s, evt))
  {
  }

  // ---------------------------------------------------------------------
  // Folding a whole sequence of steps, against direct (non-incremental)
  // sums and the direct weighted average of the end points.

  function AddAll(a: Accumulator, steps: seq<Step>, evt: int): Accumulator
    decreases |steps|
  {
    if |steps| == 0 then a
    else Add(AddAll(a, steps[..|steps| - 1], evt), steps[|steps| - 1], evt)
  }

  /** Sum of the total deposits. */
  function SumEdep(steps: seq<Step>): real
    decreases |steps|
  {
    if |steps| == 0 then 0.0
    else SumEdep(steps[..|steps| - 1]) + steps[|steps| - 1].totalEdep
  }

  /** Sum of the non-ionizing deposits. */
  function SumNiel(steps: seq<Step>): real
    decreases |steps|
  {
    if |steps| == 0 then 0.0
    else SumNiel(steps[..|steps| - 1]) + steps[|steps| - 1].nielEdep
  }

  /** Sum of the end points, each weighted by its total deposit. */
  function WeightedEnds(steps: seq<Step>): Vec3
    decreases |steps|
  {
    if |steps| == 0 then Origin
    else Plus(WeightedEnds(steps[..|steps| - 1]),
              Scale(steps[|steps| - 1].postPos, steps[|steps| - 1].totalEdep))
  }

  /** Steps of one track and one particle, each depositing positive energy. */
  predicate SameTrack(steps: seq<Step>) {
    |steps| > 0 &&
    forall i :: 0 <= i < |steps| ==>
      steps[i].trackID == steps[0].trackID && steps[i].particle == steps[0].particle
      && steps[i].totalEdep > 0.0
  }

  /** After a clear, folding steps of one track in one event sums their
      deposits exactly, counts them, keeps the first start point, and leaves
      the end at the energy-weighted centroid of the step end points. */
  lemma {:induction false} AccumulateSums(a: Accumulator, steps: seq<Step>, evt: int)
    requires SameTrack(steps)
    ensures var r := AddAll(Clear(a), steps, evt);
      && r.nsteps == |steps|
      && r.edep == SumEdep(steps) && r.edep > 0.0
      && r.eniel == SumNiel(steps)
      && r.eventID == evt && r.trackID == steps[0].trackID && r.pd == steps[0].particle
      && r.start == steps[0].prePos
      && r.stepID == steps[|steps| - 1].stepNumber
      && r.end == Div(WeightedEnds(steps), SumEdep(steps))
  {
    var r := AddAll(Clear(a), steps, evt);
    AccumulateWeighted(a, steps, evt);
    UnscaleByWeight(r.end, r.edep, WeightedEnds(steps));
  }

  /** The inductive core of AccumulateSums: the centroid scaled by the summed
      weight is the weighted sum of the end points. */
  lemma {:induction false} AccumulateWeighted(a: Accumulator, steps: seq<Step>, evt: int)
    requires SameTrack(steps)
    ensures var r := AddAll(Clear(a), steps, evt);
      && r.nsteps == |steps|
      && r.edep == SumEdep(steps) && r.edep > 0.0
      && r.eniel == SumNiel(steps)
      && r.eventID == evt && r.trackID == steps[0].trackID && r.pd == steps[0].particle
      && r.start == steps[0].prePos
      && r.stepID == steps[|steps| - 1].stepNumber
      && Scale(r.end, r.edep) == WeightedEnds(steps)
  {
    var n := |steps|;
    var s := steps[n - 1];
    var init := steps[..n - 1];
    if n == 1 {
      assert init == [];
      assert AddAll(Clear(a), init, evt) == Cleared;
      assert WeightedEnds(init) == Origin;
      assert SumEdep(init) == 0.0 && SumNiel(init) == 0.0;
      var r := Add(Cleared, s, evt);
      assert Scale(Origin, 0.0) == Origin;
      assert Plus(Origin, Scale(s.postPos, s.totalEdep)) == Scale(s.postPos, s.totalEdep);
      assert s == steps[0];
    } else {
      assert SameTrack(init) by {
        forall i | 0 <= i < |init|
          ensures init[i].trackID == init[0].trackID && init[i].particle == init[0].particle
                  && init[i].totalEdep > 0.0
        {
          assert init[i] == steps[i] && init[0] == steps[0];
        }
      }
      AccumulateWeighted(a, init, evt);
      var p := AddAll(Clear(a), init, evt);
      assert s.trackID == steps[0].trackID && s.particle == steps[0].particle;
      assert init[0] == steps[0];
      assert !RollsOver(p, s, evt);
      assert p.nsteps > 0;
    }
  }

  /** Steps of one track and one particle, each passing the zero-energy
      guard: a step may carry only non-ionizing energy. */
  predicate AcceptedRun(steps: seq<Step>) {
    |steps| > 0 &&
    forall i :: 0 <= i < |steps| ==>
      steps[i].trackID == steps[0].trackID && steps[i].particle == steps[0].particle
      && Deposits(steps[i])
  }

  /** After a clear, folding accepted steps of one track in one event counts
      every one of them and sums both deposits exactly, whatever their sign;
      identity and start come from the first step, the step number from the
      last. */
  lemma {:induction false} SumsForAcceptedSteps(a: Accumulator, steps: seq<Step>, evt: int)
    requires AcceptedRun(steps)
    ensures var r := AddAll(Clear(a), steps, evt);
      && r.nsteps == |steps|
      && r.edep == SumEdep(steps)
      && r.eniel == SumNiel(steps)
      && r.eventID == evt && r.trackID == steps[0].trackID && r.pd == steps[0].particle
      && r.start == steps[0].prePos
      && r.stepID == steps[|steps| - 1].stepNumber
  {
    var n := |steps|;
    var s := steps[n - 1];
    var init := steps[..n - 1];
    if n == 1 {
      assert init == [];
      assert AddAll(Clear(a), init, evt) == Cleared;
      assert SumEdep(init) == 0.0 && SumNiel(init) == 0.0;
      assert s == steps[0];
    } else {
      assert AcceptedRun(init) by {
        forall i | 0 <= i < |init|
          ensures init[i].trackID == init[0].trackID && init[i].particle == init[0].particle
                  && Deposits(init[i])
        {
          assert init[i] == steps[i] && init[0] == steps[0];
        }
      }
      SumsForAcceptedSteps(a, init, evt);
      var p := AddAll(Clear(a), init, evt);
      assert s.trackID == steps[0].trackID && s.particle == steps[0].particle;
      assert init[0] == steps[0];
      assert !RollsOver(p, s, evt);
      assert p.nsteps > 0;
    }
  }

  /** The steps of the three-step scenario: track 7 of one particle,
      depositing 1, 2 and 3 at end points 0, 1 and 3 along the axis. */
  function ScenarioSteps(): seq<Step> {
    [Step(7, Species("e-"), 1, 1.0, 0.0, Origin, Origin),
     Step(7, Species("e-"), 2, 2.0, 0.0, Origin, Vec3(0.0, 0.0, 1.0)),
     Step(7, Species("e-"), 3, 3.0, 0.0, Vec3(0.0, 0.0, 1.0), Vec3(0.0, 0.0, 3.0))]
  }

  /** The direct sums of the scenario: total deposit 6, weighted end points
      11 along the axis. */
  lemma ScenarioTotals()
    ensures SumEdep(ScenarioSteps()) == 6.0
    ensures WeightedEnds(ScenarioSteps()) == Vec3(0.0, 0.0, 11.0)
  {
    var steps := ScenarioSteps();
    var s1, s2 := steps[..1], steps[..2];
    assert s2[..1] == s1 && s1[..0] == [] && steps[..2] == s2;
    assert SumEdep(s1) == 1.0 && WeightedEnds(s1) == Origin;
    assert SumEdep(s2) == 3.0 && WeightedEnds(s2) == Vec3(0.0, 0.0, 2.0);
  }

  /** The three-step scenario sums to 6, with centroid 11/6 along the axis. */
  lemma ThreeStepScenario(a: Accumulator, evt: int)
    ensures var r := AddAll(Clear(a), ScenarioSteps(), evt);
      r.edep == 6.0 && r.nsteps == 3 && r.end == Vec3(0.0, 0.0, 11.0 / 6.0)
  {
    assert SameTrack(ScenarioSteps());
    ScenarioTotals();
    AccumulateSums(a, ScenarioSteps(), evt);
  }
}
