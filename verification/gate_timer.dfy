/** The gate timer: closes the gate once it has been open for `GATE_DELAY` ms. */
module GateTimer {
  import opened Clock
  import opened ParkingState

  /** One check of the dwell time at `now`; the only way the gate closes. */
  function CheckGateTimeout(s: State, now: Millis): (r: State)
    ensures r.isGateOpen <==> s.isGateOpen && Elapsed(now, s.gateOpenTime) < GATE_DELAY
    ensures r == s.(isGateOpen := r.isGateOpen)
    ensures InBounds(s) ==> InBounds(r)
    ensures Consistent(s) ==> Consistent(r)
  {
    if s.isGateOpen && Elapsed(now, s.gateOpenTime) >= GATE_DELAY then
      s.(isGateOpen := false)
    else s
  }

  /** An open gate is still open 2999 ms after its opening time and closed 3000 ms
      later, also when the clock wraps in between. */
  lemma DwellTime(s: State)
    requires s.isGateOpen
    ensures CheckGateTimeout(s, Advance(s.gateOpenTime, GATE_DELAY - 1)).isGateOpen
    ensures !CheckGateTimeout(s, Advance(s.gateOpenTime, GATE_DELAY)).isGateOpen
  {
    ElapsedAdvance(s.gateOpenTime, GATE_DELAY - 1);
    ElapsedAdvance(s.gateOpenTime, GATE_DELAY);
  }
}
