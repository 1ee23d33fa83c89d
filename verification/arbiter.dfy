/** The entry/exit arbiter: debounced presence edges decide arrivals and
    departures and open the gate. */
module Arbiter {
  import opened Clock
  import opened ParkingState

  /** The presence sensor reads LOW and more than `DEBOUNCE_DELAY` ms have
      passed since the last accepted edge. */
  predicate EdgeAccepted(s: State, now: Millis, irLow: bool)
  {
    irLow && Elapsed(now, s.lastIRTrigger) > DEBOUNCE_DELAY
  }

  /** An accepted edge with the gate closed and a free spot counted. */
  predicate IsArrival(s: State, now: Millis, irLow: bool)
  {
    EdgeAccepted(s, now, irLow) && !s.isGateOpen && s.availableSpots > 0
  }

  /** An accepted edge with the gate closed and no free spot counted. */
  predicate IsDeparture(s: State, now: Millis, irLow: bool)
  {
    EdgeAccepted(s, now, irLow) && !s.isGateOpen && s.availableSpots == 0
  }

  /** One poll of the presence sensor at time `now`. */
  function CheckIRSensor(s: State, now: Millis, irLow: bool): (r: State)
    // debounce: a rejected reading changes nothing, an accepted one is stamped
    ensures !EdgeAccepted(s, now, irLow) ==> r == s
    ensures EdgeAccepted(s, now, irLow) ==> r.lastIRTrigger == now
    // the cadence stamps are never touched
    ensures r.lastDistanceCheck == s.lastDistanceCheck && r.lastLCDUpdate == s.lastLCDUpdate
    // with the gate already open only the debounce stamp can move
    ensures s.isGateOpen ==> r == s.(lastIRTrigger := r.lastIRTrigger)
    // the arbiter never closes the gate, never frees spot 1, and stamps every opening
    ensures s.isGateOpen ==> r.isGateOpen
    ensures s.isSpot1Occupied ==> r.isSpot1Occupied
    ensures !s.isGateOpen && r.isGateOpen ==> r.gateOpenTime == now
    ensures r.gateOpenTime != s.gateOpenTime ==> r.isGateOpen && !s.isGateOpen
    // arrival: open the gate, take the first free spot, count only a real flip
    ensures IsArrival(s, now, irLow) ==>
              && r.isGateOpen && r.gateOpenTime == now
              && r.isSpot1Occupied
              && r.isSpot2Occupied == (s.isSpot2Occupied || s.isSpot1Occupied)
              && r.availableSpots == s.availableSpots - (OccupiedCount(r) - OccupiedCount(s))
    // departure: only a car in spot 2 is let out
    ensures IsDeparture(s, now, irLow) && s.isSpot2Occupied ==>
              r == s.(isSpot2Occupied := false, availableSpots := s.availableSpots + 1,
                      isGateOpen := true, gateOpenTime := now, lastIRTrigger := now)
    ensures IsDeparture(s, now, irLow) && !s.isSpot2Occupied ==>
              r == s.(lastIRTrigger := now)
    // a negative counter is left alone apart from the stamp
    ensures EdgeAccepted(s, now, irLow) && s.availableSpots < 0 ==> r == s.(lastIRTrigger := now)
    ensures InBounds(s) ==> InBounds(r)
    ensures Consistent(s) ==> Consistent(r)
  {
    if irLow && Elapsed(now, s.lastIRTrigger) > DEBOUNCE_DELAY then
      var t := s.(lastIRTrigger := now);
      if !t.isGateOpen && t.availableSpots > 0 then
        var gate := t.(isGateOpen := true, gateOpenTime := now);
        if !gate.isSpot1Occupied then
          gate.(isSpot1Occupied := true, availableSpots := gate.availableSpots - 1)
        else if !gate.isSpot2Occupied then
          gate.(isSpot2Occupied := true, availableSpots := gate.availableSpots - 1)
        else gate
      else if !t.isGateOpen && t.availableSpots == 0 then
        if t.isSpot2Occupied then
          t.(isSpot2Occupied := false, availableSpots := t.availableSpots + 1,
             isGateOpen := true, gateOpenTime := now)
        else t
      else t
    else s
  }

  /** After an accepted edge at `first`, a LOW reading no more than
      `DEBOUNCE_DELAY` ms later is ignored: one accepted edge, not two. */
  lemma DebounceSuppressesSecondEdge(s: State, first: Millis, second: Millis)
    requires EdgeAccepted(s, first, true)
    requires Elapsed(second, first) <= DEBOUNCE_DELAY
    ensures CheckIRSensor(CheckIRSensor(s, first, true), second, true)
            == CheckIRSensor(s, first, true)
  {
  }

  /** From a consistent state an arrival always takes a spot: the case of a
      counted free spot with both flags set cannot arise. */
  lemma ConsistentArrivalTakesSpot(s: State, now: Millis, irLow: bool)
    requires Consistent(s) && IsArrival(s, now, irLow)
    ensures OccupiedCount(CheckIRSensor(s, now, irLow)) == OccupiedCount(s) + 1
    ensures CheckIRSensor(s, now, irLow).availableSpots == s.availableSpots - 1
  {
  }

  /** From a consistent state a departure is never dropped: a zero count means
      both spots are full, so spot 2 is freed and the gate opens. */
  lemma ConsistentDepartureOpensGate(s: State, now: Millis, irLow: bool)
    requires Consistent(s) && IsDeparture(s, now, irLow)
    ensures CheckIRSensor(s, now, irLow).isGateOpen
    ensures !CheckIRSensor(s, now, irLow).isSpot2Occupied
    ensures CheckIRSensor(s, now, irLow).isSpot1Occupied
  {
  }
}
