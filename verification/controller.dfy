/** One iteration of the main loop and runs of many iterations: the fixed order
    distance check, display refresh, presence check, gate timeout. */
module Controller {
  import opened Clock
  import opened ParkingState
  import opened Ranging
  import opened Occupancy
  import opened Arbiter
  import opened GateTimer

  /** What the loop reads in one iteration: the clock, the raw distance the
      ranging sensor would report if sampled now, and whether the presence
      sensor reads LOW. */
  datatype Input = Input(now: Millis, rawDistance: real, irLow: bool)

  /** What the display shows: free spots out of the total, and each spot's flag. */
  datatype Frame = Frame(available: int, total: int, spot1Full: bool, spot2Full: bool)

  /** Commands to the outside world: servo writes and display refreshes. */
  datatype Command = OpenGate | CloseGate | Render(frame: Frame)

  /** The state after some iterations and the commands they issued, in order. */
  datatype Tick = Tick(state: State, commands: seq<Command>)

  /** The display content for a state. */
  function Snapshot(s: State): (f: Frame)
    ensures f.total == TOTAL_SPOTS
    ensures f.available == s.availableSpots
    ensures f.spot1Full == s.isSpot1Occupied && f.spot2Full == s.isSpot2Occupied
    ensures InBounds(s) ==> 0 <= f.available <= f.total
    ensures Consistent(s) ==>
              f.available
              == f.total - (if f.spot1Full then 1 else 0) - (if f.spot2Full then 1 else 0)
  {
    Frame(s.availableSpots, TOTAL_SPOTS, s.isSpot1Occupied, s.isSpot2Occupied)
  }

  /** Whether the distance check is due. */
  predicate DistanceDue(s: State, i: Input)
  {
    Elapsed(i.now, s.lastDistanceCheck) >= DISTANCE_CHECK_INTERVAL
  }

  /** The distance stage: every 100 ms, sample, update spot 1 and restamp. */
  function DistanceStage(s: State, i: Input): (r: State)
    ensures r.lastDistanceCheck == if DistanceDue(s, i) then i.now else s.lastDistanceCheck
    ensures !DistanceDue(s, i) ==> r == s
    ensures DistanceDue(s, i) ==> r.isSpot1Occupied == CarPresent(Clamp(i.rawDistance))
    ensures DistanceDue(s, i) ==>
              r.(lastDistanceCheck := s.lastDistanceCheck)
              == CheckParkingSpots(s, Clamp(i.rawDistance))
    ensures r == s.(isSpot1Occupied := r.isSpot1Occupied, availableSpots := r.availableSpots,
                    lastDistanceCheck := r.lastDistanceCheck)
    ensures InBounds(s) ==> InBounds(r)
    ensures Consistent(s) ==> Consistent(r)
  {
    if DistanceDue(s, i) then
      CheckParkingSpots(s, Clamp(i.rawDistance)).(lastDistanceCheck := i.now)
    else s
  }

  /** Whether the display refresh is due: at least 500 ms since the last one. */
  predicate LcdDue(s: State, i: Input)
  {
    Elapsed(i.now, s.lastLCDUpdate) >= LCD_UPDATE_INTERVAL
  }

  /** The servo angle a gate flag asks for. */
  function GateAngle(open: bool): int
  {
    if open then GATE_OPEN_ANGLE else GATE_CLOSED_ANGLE
  }

  /** The servo angle after a command sequence, starting from `angle`. */
  function ServoAngle(angle: int, commands: seq<Command>): int
    decreases |commands|
  {
    if |commands| == 0 then angle
    else ServoAngle(AngleAfter(angle, commands[0]), commands[1..])
  }

  /** The servo angle after one command, starting from `angle`. */
  function AngleAfter(angle: int, c: Command): int
  {
    match c
    case OpenGate => GATE_OPEN_ANGLE
    case CloseGate => GATE_CLOSED_ANGLE
    case Render(_) => angle
  }

  /** The servo commands of a sequence, in order. */
  function GateCommands(commands: seq<Command>): (g: seq<Command>)
    ensures |g| <= |commands|
    ensures forall k :: 0 <= k < |g| ==> !g[k].Render?
    decreases |commands|
  {
    if |commands| == 0 then []
    else if commands[0].Render? then GateCommands(commands[1..])
    else [commands[0]] + GateCommands(commands[1..])
  }

  /** One call of `loop()`. `openGate` runs exactly on the arbiter paths that
      turn the gate flag on, and `closeGate` exactly when the timer turns it off. */
  function Loop(s: State, i: Input): (r: Tick)
    ensures InBounds(s) ==> InBounds(r.state)
    ensures Consistent(s) ==> Consistent(r.state)
    ensures r.state.lastLCDUpdate == if LcdDue(s, i) then i.now else s.lastLCDUpdate
    // the distance stage runs on its own 100 ms cadence
    ensures r.state.lastDistanceCheck == if DistanceDue(s, i) then i.now else s.lastDistanceCheck
    // without an accepted edge, or with the gate already open, the presence
    // check leaves the flags and the counter as the distance stage left them
    ensures !EdgeAccepted(s, i.now, i.irLow) || s.isGateOpen ==>
              && r.state.isSpot1Occupied == DistanceStage(s, i).isSpot1Occupied
              && r.state.isSpot2Occupied == s.isSpot2Occupied
              && r.state.availableSpots == DistanceStage(s, i).availableSpots
    ensures (!EdgeAccepted(s, i.now, i.irLow) || s.isGateOpen) && DistanceDue(s, i) ==>
              r.state.isSpot1Occupied == CarPresent(Clamp(i.rawDistance))
    ensures (!EdgeAccepted(s, i.now, i.irLow) || s.isGateOpen) && !DistanceDue(s, i) ==>
              && r.state.isSpot1Occupied == s.isSpot1Occupied
              && r.state.availableSpots == s.availableSpots
    // the presence check sees the sampled state and stamps every accepted edge
    ensures r.state.lastIRTrigger
            == if EdgeAccepted(s, i.now, i.irLow) then i.now else s.lastIRTrigger
    ensures IsArrival(DistanceStage(s, i), i.now, i.irLow) ==>
              && r.state.isGateOpen && r.state.gateOpenTime == i.now && r.state.isSpot1Occupied
              && r.state.isSpot2Occupied
                 == (s.isSpot2Occupied || DistanceStage(s, i).isSpot1Occupied)
              && r.state.availableSpots == DistanceStage(s, i).availableSpots
                   - (OccupiedCount(r.state) - OccupiedCount(DistanceStage(s, i)))
    ensures IsDeparture(DistanceStage(s, i), i.now, i.irLow) && s.isSpot2Occupied ==>
              && r.state.isGateOpen && r.state.gateOpenTime == i.now && !r.state.isSpot2Occupied
              && r.state.isSpot1Occupied == DistanceStage(s, i).isSpot1Occupied
              && r.state.availableSpots == 1
    ensures IsDeparture(DistanceStage(s, i), i.now, i.irLow) && !s.isSpot2Occupied ==>
              && !r.state.isGateOpen && r.state.gateOpenTime == s.gateOpenTime
              && r.state.availableSpots == 0
              && r.state.isSpot1Occupied == DistanceStage(s, i).isSpot1Occupied
              && !r.state.isSpot2Occupied
    // a closed gate opens only on an accepted edge
    ensures !s.isGateOpen && !EdgeAccepted(s, i.now, i.irLow) ==> !r.state.isGateOpen
    // an open gate closes exactly when its dwell time is up
    ensures s.isGateOpen ==>
              && r.state.gateOpenTime == s.gateOpenTime
              && (r.state.isGateOpen <==> Elapsed(i.now, s.gateOpenTime) < GATE_DELAY)
  {
    var sampled := DistanceStage(s, i);
    var shown := DisplayStage(sampled, i);
    var polled := CheckIRSensor(shown, i.now, i.irLow);
    var timed := CheckGateTimeout(polled, i.now);
    var render := if LcdDue(sampled, i) then [Render(Snapshot(sampled))] else [];
    Tick(timed, render + ServoWrites(shown, polled, timed))
  }

  /** The display stage: on its cadence it refreshes the display and restamps;
      the record is otherwise only read. */
  function DisplayStage(s: State, i: Input): (r: State)
    ensures r == s.(lastLCDUpdate := r.lastLCDUpdate)
    ensures r.lastLCDUpdate == if LcdDue(s, i) then i.now else s.lastLCDUpdate
  {
    if LcdDue(s, i) then s.(lastLCDUpdate := i.now) else s
  }

  /** After a refresh at `i.now`, the display is not refreshed again until
      500 ms later: refreshes are spaced by the cadence, also across the wrap. */
  lemma DisplaySpacing(s: State, i: Input, later: Input)
    requires LcdDue(s, i)
    requires Elapsed(later.now, i.now) < LCD_UPDATE_INTERVAL
    ensures !LcdDue(DisplayStage(s, i), later)
  {
  }

  /** The servo writes of one iteration, given the state before the presence
      check, after it, and after the timeout check: `openGate` when the presence
      check turned the flag on, `closeGate` when the timer turned it off. */
  function ServoWrites(shown: State, polled: State, timed: State): seq<Command>
  {
    (if !shown.isGateOpen && polled.isGateOpen then [OpenGate] else [])
    + (if polled.isGateOpen && !timed.isGateOpen then [CloseGate] else [])
  }

  /** A gate the presence check has just opened is not closed by the timeout
      check of the same iteration, so one iteration writes the servo at most
      once, and exactly when the gate flag changes. */
  lemma LoopGateCommands(s: State, i: Input)
    ensures |GateCommands(Loop(s, i).commands)| <= 1
    ensures |GateCommands(Loop(s, i).commands)| == 1
            <==> Loop(s, i).state.isGateOpen != s.isGateOpen
    ensures ServoAngle(GateAngle(s.isGateOpen), Loop(s, i).commands)
            == GateAngle(Loop(s, i).state.isGateOpen)
  {
    var sampled := DistanceStage(s, i);
    var shown := DisplayStage(sampled, i);
    var polled := CheckIRSensor(shown, i.now, i.irLow);
    var writes := ServoWrites(shown, polled, CheckGateTimeout(polled, i.now));
    var render := if LcdDue(sampled, i) then [Render(Snapshot(sampled))] else [];
    assert Loop(s, i).commands == render + writes;
    assert |writes| <= 1;
    var angle := GateAngle(s.isGateOpen);
    assert ServoAngle(angle, render) == angle;
    ServoAngleAppend(angle, render, writes);
    GateCommandsAppend(render, writes);
  }

  /** The display is refreshed on its cadence with the state as the distance
      stage left it, before the presence check of the same iteration runs. */
  lemma LoopRendersBeforePresence(s: State, i: Input)
    ensures LcdDue(s, i) ==> Loop(s, i).commands[0] == Render(Snapshot(DistanceStage(s, i)))
    ensures !LcdDue(s, i) ==>
              forall k :: 0 <= k < |Loop(s, i).commands| ==> !Loop(s, i).commands[k].Render?
  {
  }

  /** The servo commands of a concatenation are those of each part. */
  lemma {:induction false} GateCommandsAppend(a: seq<Command>, b: seq<Command>)
    ensures GateCommands(a + b) == GateCommands(a) + GateCommands(b)
    decreases |a|
  {
    if |a| > 0 {
      assert (a + b)[1..] == a[1..] + b;
      GateCommandsAppend(a[1..], b);
    } else {
      assert a + b == b;
    }
  }

  /** Iterating `Loop` over a sequence of inputs, collecting every command. */
  function Run(s: State, inputs: seq<Input>): (r: Tick)
    ensures InBounds(s) ==> InBounds(r.state)
    ensures Consistent(s) ==> Consistent(r.state)
    decreases |inputs|
  {
    if |inputs| == 0 then Tick(s, [])
    else
      var first := Loop(s, inputs[0]);
      var rest := Run(first.state, inputs[1..]);
      Tick(rest.state, first.commands + rest.commands)
  }

  /** Running two command sequences one after the other drives the servo as
      their concatenation does. */
  lemma {:induction false} ServoAngleAppend(angle: int, a: seq<Command>, b: seq<Command>)
    ensures ServoAngle(angle, a + b) == ServoAngle(ServoAngle(angle, a), b)
    decreases |a|
  {
    if |a| == 0 {
      assert a + b == b;
    } else {
      assert (a + b)[1..] == a[1..] + b;
      ServoAngleAppend(AngleAfter(angle, a[0]), a[1..], b);
    }
  }

  /** Over any run, the servo position the commands leave behind matches the
      gate flag, provided it did at the start. */
  lemma {:induction false} RunServoTracksGate(s: State, inputs: seq<Input>)
    ensures ServoAngle(GateAngle(s.isGateOpen), Run(s, inputs).commands)
            == GateAngle(Run(s, inputs).state.isGateOpen)
    decreases |inputs|
  {
    if |inputs| > 0 {
      var first := Loop(s, inputs[0]);
      var rest := Run(first.state, inputs[1..]);
      ServoAngleAppend(GateAngle(s.isGateOpen), first.commands, rest.commands);
      RunServoTracksGate(first.state, inputs[1..]);
    }
  }

  /** Every state reachable from power-on keeps the counter consistent with the
      flags and within capacity, and the servo (closed after start-up) agrees
      with the gate flag. */
  lemma ReachableInvariant(inputs: seq<Input>)
    ensures Consistent(Run(Init, inputs).state)
    ensures InBounds(Run(Init, inputs).state)
    ensures ServoAngle(GATE_CLOSED_ANGLE, Run(Init, inputs).commands)
            == GateAngle(Run(Init, inputs).state.isGateOpen)
  {
    RunServoTracksGate(Init, inputs);
  }
}
