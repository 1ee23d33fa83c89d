# Smart parking controller — Dafny model

This project models the control logic of an Arduino controller for a two-space gated
parking lot (`Code.cpp`). The controller keeps one state record. It holds the free-spot
counter, an occupancy flag for each spot, the gate flag and four millisecond timestamps.
Each pass of `loop()` updates the record from three inputs:

- an ultrasonic distance sample, which drives spot 1 and is taken every 100 ms;
- a debounced IR presence edge, which decides between an arrival and a departure and opens the gate;
- the clock, which closes the gate 3000 ms after it opened.

The display is refreshed every 500 ms.

Modules, one per file:

- `Clock` (`clock.dfy`): `millis()` values as integers in [0, 2^32). Every "time since" is an `unsigned long` subtraction that wraps modulo 2^32.
- `ParkingState` (`parking_state.dfy`): the constants, the state record, the power-on state, and the invariants `InBounds` (0 ≤ count ≤ 2) and `Consistent` (count = 2 − number of set flags).
- `Ranging` (`ranging.dfy`): echo time to centimetres, and the out-of-range clamp of `getDistance`.
- `Occupancy` (`occupancy.dfy`): `checkParkingSpots`.
- `Arbiter` (`arbiter.dfy`): `checkIRSensor`.
- `GateTimer` (`gate_timer.dfy`): `checkGateTimeout`.
- `Controller` (`controller.dfy`): one `loop()` iteration and runs over input sequences. A run returns the final state and the commands issued to the servo and the display.
- `Scenarios` (`scenarios.dfy`): concrete walks from the initial record.

Three behaviours of the code are worth stating explicitly, because the model keeps them as written:

- An arrival that finds both spot flags set changes only the timestamps and opens the gate. The counter is decremented only inside the two flag-setting branches (`Code.cpp:118-124`). `Arbiter.ConsistentArrivalTakesSpot` shows this case cannot arise from the initial state.
- An arrival also sets spot 1 when it is free (`Code.cpp:118-120`), so spot 1 is set by both the distance check and the presence check. Only the distance check clears it, as `Arbiter.CheckIRSensor` states.
- The display refresh runs before the presence check within one iteration (`Code.cpp:68-73`), as `Controller.LoopRendersBeforePresence` states.

Servo writes are modelled as `OpenGate`/`CloseGate` commands. `openGate()` is called on exactly the arbiter paths that switch `isGateOpen` from false to true. `closeGate()` is called exactly where the timer switches it back. So `Loop` emits those commands when the flag flips.

## Model

| member | source | states |
|---|---|---|
| Clock.Elapsed | Code.cpp:63 | unsigned `now - since`: the plain difference when no wrap occurred, 2^32 minus the gap otherwise, and always the advance that takes `since` to `now` |
| Clock.ElapsedAdvance | Code.cpp:147 | measuring back from a clock advanced by k < 2^32 ms gives exactly k, also across the rollover |
| ParkingState.InitConsistent | Code.cpp:24-32 | the power-on record (2 free, both spots free, gate closed, stamps 0) is consistent, and consistency implies 0 ≤ count ≤ 2 |
| Ranging.EchoToCm | Code.cpp:84-85 | the converted distance is non-negative, zero exactly for a zero (timed-out) echo, and twice it equals duration × 0.0343 |
| Ranging.Clamp | Code.cpp:87 | the result lies in (0, 200]; it equals the input exactly when the input is in (0, 200], and is 200 otherwise |
| Ranging.GetDistance | Code.cpp:77-88 | a sample is always in (0, 200]; a timed-out echo reads as 200; an echo of 1 to 11661 µs passes through as its converted distance, and every echo of 11662 µs or more reads as the maximum range |
| Ranging.ClampIdempotent | Code.cpp:87 | clamping an already clamped sample changes nothing |
| Occupancy.CheckParkingSpots | Code.cpp:90-106 | spot 1 ends up occupied iff the sample is below 15 cm; only spot 1 and the counter may change, and only on an edge; an occupying edge lowers a positive counter by one and sets a non-positive one to 0; a releasing edge raises a counter below 2 by one and sets one at or above 2 to 2; bounds and consistency are preserved |
| Occupancy.CheckParkingSpotsIdempotent | Code.cpp:93-105 | a second sample on the same side of the threshold leaves the state as the first left it |
| Arbiter.CheckIRSensor | Code.cpp:108-136 | a reading that is not LOW or within 500 ms (strict) of the last edge changes nothing; an accepted one stamps `lastIRTrigger`; with the gate open nothing else moves; an arrival opens and stamps the gate, fills spot 1 else spot 2, and lowers the count by exactly the number of flags set; a departure with the lot full frees spot 2, raises the count and opens the gate, or changes only the stamp when spot 2 is free; the arbiter never closes the gate or frees spot 1; bounds and consistency are preserved |
| Arbiter.DebounceSuppressesSecondEdge | Code.cpp:109-110 | after an accepted edge, a LOW reading at most 500 ms later changes nothing |
| Arbiter.ConsistentArrivalTakesSpot | Code.cpp:112-124 | from a consistent state every arrival sets one more flag and lowers the count by one |
| Arbiter.ConsistentDepartureOpensGate | Code.cpp:125-134 | from a consistent state a departure is never dropped: spot 2 is freed, spot 1 stays full, the gate opens |
| GateTimer.CheckGateTimeout | Code.cpp:146-152 | after the check the gate is open iff it was open and less than 3000 ms have elapsed since it opened; no other field changes; bounds and consistency are preserved |
| GateTimer.DwellTime | Code.cpp:146-152 | an open gate is still open 2999 ms after its opening time and closed at 3000 ms, whatever the opening time |
| Controller.Snapshot | Code.cpp:154-168 | the display shows the record's free count out of 2 and each spot's flag; for an in-bounds state the shown count lies in [0, 2], and for a consistent one it equals 2 minus the spots shown full |
| Controller.DisplayStage | Code.cpp:68-71 | the display stage restamps `lastLCDUpdate` exactly when its 500 ms cadence is due and changes no other field |
| Controller.DisplaySpacing | Code.cpp:68-71 | after a refresh at some clock reading, the display is not due again until 500 ms have elapsed from it, across the wrap too |
| Controller.DistanceStage | Code.cpp:63-66 | the distance check runs and restamps exactly when 100 ms have elapsed (wrap-aware); when it runs, spot 1 follows the clamped sample through `checkParkingSpots`; when it does not, nothing changes; only spot 1, the counter and the stamp move; bounds and consistency are preserved |
| Controller.Loop | Code.cpp:60-75 | one iteration preserves bounds and consistency; restamps the distance check and the display each exactly when its cadence is due; without an accepted edge, or with the gate already open, spot 2 is unchanged and spot 1 and the counter are those of the distance stage (spot 1 follows the clamped sample when due, unchanged otherwise); `lastIRTrigger` moves to `now` exactly on an accepted edge; an arrival after the distance stage opens the gate stamped `now`, fills spot 1 else spot 2 and lowers the counter by the number of flags set; a spot-2 departure opens the gate stamped `now`, frees spot 2, keeps spot 1 as sampled and leaves one free spot; a departure with spot 2 free leaves the gate closed, the counter at 0 and the flags as sampled; a closed gate stays closed without an accepted edge; an open gate keeps its stamp and closes exactly when 3000 ms have elapsed |
| Controller.LoopGateCommands | Code.cpp:112-116 | one iteration writes the servo at most once and exactly when the gate flag changes, and the servo ends at the angle the flag asks for |
| Controller.LoopRendersBeforePresence | Code.cpp:63-73 | when due, the first command of the iteration renders the state after the distance stage and before the presence check; otherwise nothing is rendered |
| Controller.Run | Code.cpp:60-75 | any number of iterations preserves the bounds and the consistency of counter and flags |
| Controller.RunServoTracksGate | Code.cpp:138-151 | over any run the servo angle left by the issued commands matches the gate flag, if it matched at the start |
| Controller.ReachableInvariant | Code.cpp:24-32 | every state reachable from power-on is consistent and in bounds, and the servo (closed after start-up) agrees with the gate flag |
| Scenarios.ArrivalThenDeparture | Code.cpp:90-134 | an 8 cm sample fills spot 1; a presence edge at 1000 ms then opens the gate and assigns spot 2; with the lot full and the gate closed, an edge at 5000 ms frees spot 2 and reopens the gate |
| Scenarios.EarlyEdgeIgnored | Code.cpp:109 | with the record at its initial values (stamp 0), a LOW reading at `now` = 500 is ignored and one at `now` = 501 is accepted |
| Scenarios.GateClosesOnTime | Code.cpp:147 | a gate opened at 1000 ms is open at 3999 ms and closed at 4000 ms |
| Scenarios.NoEchoReadsEmpty | Code.cpp:84-105 | a missing echo reads as 200 cm, leaves a free spot 1 free, and frees an occupied one |
| Scenarios.ThreeIterations | Code.cpp:60-75 | three loop passes from the initial record, at `now` = 500, 1000 and 4000, give the expected final state and command stream |

## Left out

- `setup()`, with its pin modes, start-up display text and blocking `delay` calls, is not modelled. The model starts from the state it leaves: record at its initial values, servo closed.
- The display is modelled only as the tuple it shows (count, total, spot flags). Cursor placement and the "Full"/"Free" text are left out.
- `Serial.println` logging is left out. It is observable only outside the controller.
- `digitalRead`, `pulseIn` and `millis` become inputs to an iteration. The clock is arbitrary, and wrap-around is handled by the modular subtraction.
- Ranging.EchoToCm: the conversion is exact real arithmetic, not single-precision float. Rounding near the 15 cm threshold and the 200 cm bound is not modelled.
- ParkingState.State: `availableSpots` is an unbounded integer, whereas the program's is a C `int` (16 bits on AVR boards). The two differ only in `checkParkingSpots`, and only at the ends of that range: `max(0, availableSpots - 1)` overflows at the minimum and `min(TOTAL_SPOTS, availableSpots + 1)` at the maximum (`Code.cpp:96`, `Code.cpp:102`). No run from the initial record gets there, since the counter stays in [0, 2] (`Controller.ReachableInvariant`). So `Occupancy.CheckParkingSpots` describes unbounded arithmetic at those two extremes. `Arbiter.CheckIRSensor` is exact for every C `int`: its decrement runs only on a positive counter and its increment only on a zero one (`Code.cpp:112`, `Code.cpp:125`).
- The model's clock is unconstrained: `loop()` may run at any `now`, including the first 4000 ms, whereas in the program `setup()` blocks for 4000 ms, so the first `loop()` sees `millis()` of at least 4000. Every invariant holds for all clocks, so the model covers the real runs as well.
- The raw distance is part of every iteration's input, but it is used only when the 100 ms distance cadence is due, matching when `getDistance` is called.
