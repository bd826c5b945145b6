/** The state the secondary-production process keeps between steps: its two
    configuration parameters, one step accumulator per track identifier, and
    the event number used to throw the accumulators away when a new event
    begins. */
module SecondaryProduction {
  import opened StepAccumulator

  datatype Production = Production(
    secondariesFirst: bool,       // suspend the parent to process secondaries
    combiningStepLength: real,    // distance within which steps are combined
    trackAccum: map<int, Accumulator>,
    currentEventID: int
  )

  // ---------------------------------------------------------------------
  // Configuration accessors

  function SetProcessSecondariesFirst(p: Production, v: bool): (r: Production)
    ensures r.secondariesFirst == v
    ensures r.combiningStepLength == p.combiningStepLength
    ensures r.trackAccum == p.trackAccum && r.currentEventID == p.currentEventID
  {
    p.(secondariesFirst := v)
  }

  /** The flag's getter: whether the parent track is suspended so that its
      secondaries are processed first. Setting the flag to what it reads
      leaves the process state unchanged. */
  function ProcessSecondariesFirst(p: Production): (r: bool)
    ensures SetProcessSecondariesFirst(p, r) == p
  {
    p.secondariesFirst
  }

  /** Setting the flag and reading it back returns the value set, and the
      latest setting wins. */
  lemma SecondariesFirstRoundTrip(p: Production, u: bool, v: bool)
    ensures ProcessSecondariesFirst(SetProcessSecondariesFirst(p, v)) == v
    ensures SetProcessSecondariesFirst(SetProcessSecondariesFirst(p, u), v)
            == SetProcessSecondariesFirst(p, v)
  {
  }

  function SetCombiningStepLength(p: Production, v: real): (r: Production)
    ensures CombiningStepLength(r) == v
    ensures r.secondariesFirst == p.secondariesFirst
    ensures r.trackAccum == p.trackAccum && r.currentEventID == p.currentEventID
  {
    p.(combiningStepLength := v)
  }

  /** The getter as declared: its return type is a boolean, so the stored
      length is converted to "is it non-zero". */
  function GetCombiningStepLengthAsWritten(p: Production): (r: bool)
    ensures r <==> CombiningStepLength(p) != 0.0
  {
    p.combiningStepLength != 0.0
  }

  /** The boolean-to-double conversion a caller reading a length gets. */
  function BoolAsDouble(b: bool): real {
    if b then 1.0 else 0.0
  }

  /** A length of half a millimetre reads back, through the declared boolean
      return type, as one millimetre. */
  lemma CombiningStepLengthAsWrittenLoses(p: Production)
    ensures BoolAsDouble(GetCombiningStepLengthAsWritten(SetCombiningStepLength(p, 0.5))) == 1.0
  {
  }

  /** The getter with the length's own type. */
  function CombiningStepLength(p: Production): real {
    p.combiningStepLength
  }

  /** Setting the length and reading it back returns the value set. */
  lemma CombiningStepLengthRoundTrip(p: Production, v: real)
    ensures CombiningStepLength(SetCombiningStepLength(p, v)) == v
    ensures GetCombiningStepLengthAsWritten(SetCombiningStepLength(p, v)) <==> v != 0.0
  {
  }

  // ---------------------------------------------------------------------
  // Per-track accumulators

  /** The map's subscript: the accumulator of the track, inserting a freshly
      cleared one when the track has none yet. */
  function AccumulatorFor(p: Production, trackID: int): (r: (Accumulator, Production))
    ensures trackID in p.trackAccum ==> r.0 == p.trackAccum[trackID] && r.1 == p
    ensures trackID !in p.trackAccum ==> r.0 == Cleared
    ensures r.1.trackAccum.Keys == p.trackAccum.Keys + {trackID}
    ensures trackID in r.1.trackAccum && r.1.trackAccum[trackID] == r.0
    ensures forall k :: k in p.trackAccum ==> k in r.1.trackAccum && r.1.trackAccum[k] == p.trackAccum[k]
    ensures r.1.currentEventID == p.currentEventID
    ensures r.1.secondariesFirst == p.secondariesFirst
    ensures r.1.combiningStepLength == p.combiningStepLength
  {
    if trackID in p.trackAccum then (p.trackAccum[trackID], p)
    else (Cleared, p.(trackAccum := p.trackAccum[trackID := Cleared]))
  }

  /** On a new event, forget every accumulator and remember the event. */
  function ClearOnNewEvent(p: Production, evt: int): (r: Production)
    ensures r.currentEventID == evt
    ensures evt != p.currentEventID ==> r.trackAccum == map[]
    ensures evt == p.currentEventID ==> r == p
    ensures r.secondariesFirst == p.secondariesFirst
    ensures r.combiningStepLength == p.combiningStepLength
  {
    if evt == p.currentEventID then p
    else p.(trackAccum := map[], currentEventID := evt)
  }

  /** After a change of event every track, whether seen in the previous
      event or not, gets a freshly cleared accumulator. */
  lemma FreshAfterNewEvent(p: Production, evt: int, trackID: int)
    requires evt != p.currentEventID
    ensures AccumulatorFor(ClearOnNewEvent(p, evt), trackID).0 == Cleared
  {
  }

  /** Handle a step of event `evt`: forget the previous event's accumulators
      on a change of event, then, when the step is to be combined (`doAdd`,
      the verdict of `DoAddStep`, whose body is not part of this model), fold
      it into the accumulator of its track. */
  function Accumulate(p: Production, s: Step, evt: int, doAdd: bool): (r: Production)
    ensures r.currentEventID == evt
    ensures r.secondariesFirst == p.secondariesFirst
    ensures r.combiningStepLength == p.combiningStepLength
    // a step that is not combined only triggers the change of event
    ensures !doAdd ==> r == ClearOnNewEvent(p, evt)
    ensures doAdd ==> s.trackID in r.trackAccum
    ensures doAdd ==>
      r.trackAccum[s.trackID] ==
        Add(if evt == p.currentEventID && s.trackID in p.trackAccum
            then p.trackAccum[s.trackID] else Cleared, s, evt)
    // other tracks keep their accumulators within an event, and are
    // forgotten across events
    ensures doAdd && evt == p.currentEventID ==>
      r.trackAccum.Keys == p.trackAccum.Keys + {s.trackID}
      && forall k :: k in p.trackAccum && k != s.trackID ==> r.trackAccum[k] == p.trackAccum[k]
    ensures doAdd && evt != p.currentEventID ==> r.trackAccum.Keys == {s.trackID}
  {
    var q := ClearOnNewEvent(p, evt);
    if !doAdd then q
    else
      var (acc, q') := AccumulatorFor(q, s.trackID);
      q'.(trackAccum := q'.trackAccum[s.trackID := Add(acc, s, evt)])
  }

  /** Every stored accumulator is reachable, and one that holds data belongs
      to the track it is filed under and to the current event. */
  predicate RegistryValid(p: Production) {
    forall k :: k in p.trackAccum ==>
      Valid(p.trackAccum[k]) &&
      (p.trackAccum[k].nsteps > 0 ==>
        p.trackAccum[k].trackID == k && p.trackAccum[k].eventID == p.currentEventID)
  }

  /** Because the registry clears on every change of event and files each
      accumulator under its own track, the accumulator's own event check never
      fires, and its track check fires only on a change of particle
      definition. */
  lemma RegistryNeverRollsOverEvent(p: Production, s: Step, evt: int)
    requires RegistryValid(p)
    ensures var acc := AccumulatorFor(ClearOnNewEvent(p, evt), s.trackID).0;
      && !EventRollover(acc, evt)
      && (TrackRollover(acc, s) <==> acc.nsteps > 0 && acc.pd != s.particle && s.trackID >= 0)
  {
  }

  /** Accumulating a step keeps the registry valid. */
  lemma AccumulatePreservesValid(p: Production, s: Step, evt: int, doAdd: bool)
    requires RegistryValid(p)
    ensures RegistryValid(Accumulate(p, s, evt, doAdd))
  {
  }
}
