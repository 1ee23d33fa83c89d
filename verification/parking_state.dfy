/** The controller's shared state record and the constants it is judged against. */
module ParkingState {
  import opened Clock

  /** Capacity of the lot. */
  const TOTAL_SPOTS: int := 2
  /** A distance sample below this many centimetres means a car stands in spot 1. */
  const DISTANCE_THRESHOLD_CM: int := 15
  /** How long the gate stays open before it closes on its own, in ms. */
  const GATE_DELAY: int := 3000
  /** Cadence of the display refresh, in ms. */
  const LCD_UPDATE_INTERVAL: int := 500
  /** Cadence of the distance check, in ms. */
  const DISTANCE_CHECK_INTERVAL: int := 100
  /** Minimum time between two accepted presence edges, in ms (strictly exceeded). */
  const DEBOUNCE_DELAY: int := 500
  /** Servo angles for the two gate positions. */
  const GATE_OPEN_ANGLE: int := 0
  const GATE_CLOSED_ANGLE: int := 90

  /** The globals of the controller, one field each. */
  datatype State = State(
    availableSpots: int,
    isSpot1Occupied: bool,
    isSpot2Occupied: bool,
    isGateOpen: bool,
    gateOpenTime: Millis,
    lastIRTrigger: Millis,
    lastDistanceCheck: Millis,
    lastLCDUpdate: Millis)

  /** The state at power-on: every spot free, gate closed, all timestamps zero. */
  const Init: State := State(TOTAL_SPOTS, false, false, false, 0, 0, 0, 0)

  /** Number of spots whose occupancy flag is set. */
  function OccupiedCount(s: State): nat
  {
    (if s.isSpot1Occupied then 1 else 0) + (if s.isSpot2Occupied then 1 else 0)
  }

  /** The free-spot counter lies within the lot's capacity. */
  predicate InBounds(s: State)
  {
    0 <= s.availableSpots <= TOTAL_SPOTS
  }

  /** The free-spot counter agrees with the two occupancy flags. */
  predicate Consistent(s: State)
  {
    s.availableSpots == TOTAL_SPOTS - OccupiedCount(s)
  }

  /** The power-on state is consistent, and consistency implies the bounds. */
  lemma InitConsistent()
    ensures Consistent(Init)
    ensures forall s: State :: Consistent(s) ==> InBounds(s)
  {
  }
}
