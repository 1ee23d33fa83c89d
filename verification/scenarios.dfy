/** Concrete walks through the controller, from the initial record. */
module Scenarios {
  import opened ParkingState
  import opened Ranging
  import opened Occupancy
  import opened Arbiter
  import opened GateTimer
  import opened Controller

  /** A car 8 cm from the sensor fills spot 1; then a presence edge at 1000 ms
      opens the gate and assigns the incoming car to spot 2; then, with the gate
      closed again, a presence edge with the lot full lets the spot-2 car out. */
  lemma ArrivalThenDeparture()
    ensures CheckParkingSpots(Init, 8.0) == Init.(isSpot1Occupied := true, availableSpots := 1)
    ensures CheckIRSensor(CheckParkingSpots(Init, 8.0), 1000, true)
            == Init.(isSpot1Occupied := true, isSpot2Occupied := true, availableSpots := 0,
                     isGateOpen := true, gateOpenTime := 1000, lastIRTrigger := 1000)
    ensures CheckIRSensor(Init.(isSpot1Occupied := true, isSpot2Occupied := true,
                                availableSpots := 0, gateOpenTime := 1000,
                                lastIRTrigger := 1000), 5000, true)
            == Init.(isSpot1Occupied := true, availableSpots := 1,
                     isGateOpen := true, gateOpenTime := 5000, lastIRTrigger := 5000)
  {
  }

  /** With the record at its initial values the debounce stamp is zero, so a
      LOW reading at `now` = 500 is ignored and one at `now` = 501 accepted. */
  lemma EarlyEdgeIgnored()
    ensures CheckIRSensor(Init, 500, true) == Init
    ensures CheckIRSensor(Init, 501, true).isGateOpen
  {
  }

  /** A gate opened at 1000 ms is open at 3999 ms and closed at 4000 ms. */
  lemma GateClosesOnTime()
    ensures CheckGateTimeout(Init.(isGateOpen := true, gateOpenTime := 1000), 3999).isGateOpen
    ensures !CheckGateTimeout(Init.(isGateOpen := true, gateOpenTime := 1000), 4000).isGateOpen
  {
  }

  /** An echo that never returns reads as the maximum range, which leaves a
      free spot 1 free and frees an occupied one. */
  lemma NoEchoReadsEmpty()
    ensures GetDistance(0) == MAX_DISTANCE as real
    ensures CheckParkingSpots(Init, GetDistance(0)) == Init
    ensures CheckParkingSpots(Init.(isSpot1Occupied := true, availableSpots := 1), GetDistance(0))
            == Init
  {
  }

  /** Three loop iterations from the initial record, at 500, 1000 and 4000 ms:
      the first samples a car in spot 1 and refreshes the display, the second
      takes a presence edge and opens the gate, the third closes it after the
      dwell time. */
  lemma ThreeIterations()
    ensures Run(Init, [Input(500, 8.0, false), Input(1000, 8.0, true), Input(4000, 8.0, false)])
            == Tick(Init.(isSpot1Occupied := true, isSpot2Occupied := true, availableSpots := 0,
                          gateOpenTime := 1000, lastIRTrigger := 1000,
                          lastDistanceCheck := 4000, lastLCDUpdate := 4000),
                    [Render(Frame(1, 2, true, false)), Render(Frame(1, 2, true, false)), OpenGate,
                     Render(Frame(0, 2, true, true)), CloseGate])
  {
  }
}
