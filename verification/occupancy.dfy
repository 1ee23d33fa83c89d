/** The occupancy tracker: edge-triggered update of spot 1 from one distance sample. */
module Occupancy {
  import opened ParkingState

  /** A sample below the threshold reads as a car standing in spot 1. */
  predicate CarPresent(distance: real)
  {
    distance < DISTANCE_THRESHOLD_CM as real
  }

  /** Spot 1 follows the sample; the free-spot counter moves with it, saturating
      at 0 and at `TOTAL_SPOTS`. */
  function CheckParkingSpots(s: State, distance: real): (r: State)
    ensures r.isSpot1Occupied == CarPresent(distance)
    ensures r == s.(isSpot1Occupied := r.isSpot1Occupied, availableSpots := r.availableSpots)
    ensures r.isSpot1Occupied == s.isSpot1Occupied ==> r == s
    ensures InBounds(s) && CarPresent(distance) ==>
              s.availableSpots - 1 <= r.availableSpots <= s.availableSpots
    ensures InBounds(s) && !CarPresent(distance) ==>
              s.availableSpots <= r.availableSpots <= s.availableSpots + 1
    // an occupying edge takes one spot off the counter, saturating at 0
    ensures !s.isSpot1Occupied && r.isSpot1Occupied && s.availableSpots > 0 ==>
              r.availableSpots == s.availableSpots - 1
    ensures !s.isSpot1Occupied && r.isSpot1Occupied && s.availableSpots <= 0 ==>
              r.availableSpots == 0
    // a releasing edge gives one back, saturating at TOTAL_SPOTS
    ensures s.isSpot1Occupied && !r.isSpot1Occupied && s.availableSpots < TOTAL_SPOTS ==>
              r.availableSpots == s.availableSpots + 1
    ensures s.isSpot1Occupied && !r.isSpot1Occupied && s.availableSpots >= TOTAL_SPOTS ==>
              r.availableSpots == TOTAL_SPOTS
    ensures InBounds(s) ==> InBounds(r)
    ensures Consistent(s) ==> Consistent(r)
  {
    if CarPresent(distance) then
      if !s.isSpot1Occupied then
        s.(isSpot1Occupied := true, availableSpots := Max(0, s.availableSpots - 1))
      else s
    else
      if s.isSpot1Occupied then
        s.(isSpot1Occupied := false, availableSpots := Min(TOTAL_SPOTS, s.availableSpots + 1))
      else s
  }

  /** Arduino's `max`. */
  function Max(a: int, b: int): int
  {
    if a < b then b else a
  }

  /** Arduino's `min`. */
  function Min(a: int, b: int): int
  {
    if a < b then a else b
  }

  /** A second sample on the same side of the threshold changes nothing. */
  lemma CheckParkingSpotsIdempotent(s: State, first: real, second: real)
    requires CarPresent(first) == CarPresent(second)
    ensures CheckParkingSpots(CheckParkingSpots(s, first), second) == CheckParkingSpots(s, first)
  {
  }
}
