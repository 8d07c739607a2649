# IoT smart parking: sensor simulator and ledger submitter

This project is a Dafny model of the core of an IoT smart-parking system, with proofs about it. That core is the sensor simulator together with the pipeline that forwards parking events to a Hyperledger Fabric ledger.

The simulator has a few parts:

- **The fleet.** The simulator keeps a fleet of battery-powered occupancy sensors, in a dictionary keyed by sensor identifier.
- **Each cycle.** Every cycle, each sensor's battery is drained and its status re-derived. Its confidence may take an error penalty. If it is active, its slot may flip between free and occupied, which emits an arrival or departure event.
- **History and queue.** Every emitted event goes into the event history. Events whose confidence exceeds 0.75 are also put on the connector's FIFO queue.
- **The consumer.** The consumer loop of `IoTBlockchainConnector` takes events off the queue. For each event it runs the ledger command once, runs it once more only if the first call failed, and calls `task_done`. An event is never put back.
- **The report.** At the end, a report counts sensors by status, slots by occupancy and events by type, and tabulates the sensors per location.

The model follows the code as written:

- **Status order.** `simulate_sensor_issues` checks `< 20` before `< 5`. So a sensor is `low_battery` exactly when its level is below 20, and the `offline` status is never assigned. The record's own comment at line 32 lists `offline` as a status, and the `< 5` branch at lines 243-244 can never be taken, so the order looks unintended. The model keeps the order the code has; `StatusFor`, `RunStatusFollowsBattery` and `NoOfflineAfterRun` state the consequence.
- **Battery.** The battery is not clamped at 0 (`RunDrainsBattery`).
- **Frozen sensors.** A sensor that is not active, including a low-battery one, never changes occupancy.
- **Ledger command.** When no ledger command was detected, `update_blockchain` raises inside its `try` (it concatenates onto `None`) and returns False without running anything.

The modules follow the program's structure:

- `Records`: the `IoTSensor` class (fields updated in place) and the `ParkingEvent` value.
- `IdFormat`: the `IOT-{k:03d}` / `lot-{k:03d}` identifiers.
- `SensorDynamics`: one sensor's cycle, and the fleet over one or many cycles, as functions of the random draws.
- `EventQueue`: the connector's `queue.Queue`.
- `Ledger`: `IoTBlockchainConnector`, with the parameter string, the command, the retry policy and the consumer loop.
- `Report`: the report's integer counts and the per-location breakdown.
- `Simulator`: `IoTSensorSimulator`, whose methods are proved to follow the `SensorDynamics` and `Report` functions.

Outside effects become parameters:

- **Random draws.** Each created sensor gets a `Seed`. Each sensor gets one `Tick` per cycle.
- **Clock readings** are fields of those draws, as opaque `Timestamp`s.
- **The external ledger command** is a `LedgerOracle`. It maps an argument vector and the 0-based number of the `update_blockchain` call to an exit status or a raised exception.

## Model

| member | source | states |
|---|---|---|
| Records.IoTSensor.constructor | blockchain/Minifab/iot_smart_parking_iintegration_with_blockchain.py:25-34 | a new sensor holds exactly the eight field values it was given |
| IdFormat.Pad3RoundTrip | blockchain/Minifab/iot_smart_parking_iintegration_with_blockchain.py:155-156 | reading the digits of `{k:03d}` back gives `k`, for every natural `k` (including those above 999) |
| IdFormat.Pad3 | blockchain/Minifab/iot_smart_parking_iintegration_with_blockchain.py:155-156 | `{k:03d}` has at least three characters, all decimal digits, and when it is longer than three it has no leading zero; `Pad3RoundTrip` shows they denote `k` |
| IdFormat.Pad3Width | blockchain/Minifab/iot_smart_parking_iintegration_with_blockchain.py:155-156 | below 1000, `{k:03d}` is exactly three characters wide |
| IdFormat.SensorId | blockchain/Minifab/iot_smart_parking_iintegration_with_blockchain.py:155 | no contract; see `SensorIdInjective`, `Pad3RoundTrip` and `IdsHaveNoQuote` |
| IdFormat.SlotId | blockchain/Minifab/iot_smart_parking_iintegration_with_blockchain.py:156 | no contract; see `SlotIdInjective`, `Pad3RoundTrip` and `IdsHaveNoQuote` |
| IdFormat.SensorIdInjective | blockchain/Minifab/iot_smart_parking_iintegration_with_blockchain.py:155 | `IOT-{a:03d}` and `IOT-{b:03d}` are equal if and only if `a == b` |
| IdFormat.SlotIdInjective | blockchain/Minifab/iot_smart_parking_iintegration_with_blockchain.py:156 | `lot-{a:03d}` and `lot-{b:03d}` are equal if and only if `a == b` |
| IdFormat.IdsHaveNoQuote | blockchain/Minifab/iot_smart_parking_iintegration_with_blockchain.py:155-156 | generated sensor and slot identifiers contain no double quote, so they can sit inside the quoted ledger parameter |
| SensorDynamics.StatusFor | blockchain/Minifab/iot_smart_parking_iintegration_with_blockchain.py:241-246 | the status chain never yields offline; it yields low battery exactly when the level is below 20 |
| SensorDynamics.SensorIssues | blockchain/Minifab/iot_smart_parking_iintegration_with_blockchain.py:235-250 | battery lowered by exactly the drain rate; active iff the new level is at least 20, never offline; confidence unchanged without an error draw, otherwise lowered by 0.2 when that stays at or above 0.5 and set to 0.5 when it would drop below; never raised and never below 0.5 when it started there; identity, occupancy and reading time untouched |
| SensorDynamics.CarMovement | blockchain/Minifab/iot_smart_parking_iintegration_with_blockchain.py:187-233 | an event exactly when the sensor is active and the draw is below the departure rate (occupied) or the arrival rate (free); no event means no change; an event flips occupancy, stamps the reading time, is a departure iff the slot was occupied, carries the new occupancy, has confidence `max(0.7, c - jitter)` for the sensor's confidence `c`, and so exceeds 0.75 iff `c - jitter` does |
| SensorDynamics.CycleStep | blockchain/Minifab/iot_smart_parking_iintegration_with_blockchain.py:268-273 | one sensor's turn: drained battery and its derived status, identity kept; a sensor below 20 emits nothing and keeps its occupancy; an event flips occupancy and is an arrival or departure accordingly |
| SensorDynamics.CycleFleet | blockchain/Minifab/iot_smart_parking_iintegration_with_blockchain.py:268-273 | a cycle keeps the number of sensors; see `RunDrainsBattery`, `RunKeepsIdentity` and `CertainArrivalCycle` |
| SensorDynamics.Emitted | blockchain/Minifab/iot_smart_parking_iintegration_with_blockchain.py:268-275 | a cycle emits at most one event per sensor, by count; see `EmittedEvents` and `EmittedOncePerSensor` |
| SensorDynamics.HeartbeatAfterCycle | blockchain/Minifab/iot_smart_parking_iintegration_with_blockchain.py:252-262 | a heartbeat taken after a turn reports the sensor's identity, the occupancy the turn's event announced (or the unchanged one) and the sensor's unjittered confidence |
| SensorDynamics.HeartbeatEvent | blockchain/Minifab/iot_smart_parking_iintegration_with_blockchain.py:252-262 | a heartbeat event has type heartbeat and carries the clock reading it was taken at; see `HeartbeatAfterCycle` |
| SensorDynamics.EmittedEvents | blockchain/Minifab/iot_smart_parking_iintegration_with_blockchain.py:264-284 | every event a cycle emits is an arrival or departure of one of the fleet's sensors with confidence at least 0.7 |
| SensorDynamics.QualifyingMembers | blockchain/Minifab/iot_smart_parking_iintegration_with_blockchain.py:278-280 | an event is forwarded to the queue if and only if it was emitted and its confidence exceeds 0.75 |
| SensorDynamics.QualifyingAppend | blockchain/Minifab/iot_smart_parking_iintegration_with_blockchain.py:274-280 | the confidence filter distributes over concatenation, so queueing event by event keeps emission order |
| SensorDynamics.Qualifying | blockchain/Minifab/iot_smart_parking_iintegration_with_blockchain.py:278-280 | the queued events are no more than those emitted; see `QualifyingMembers` |
| SensorDynamics.EmittedOncePerSensor | blockchain/Minifab/iot_smart_parking_iintegration_with_blockchain.py:268-275 | with distinct sensor identifiers, the events of a cycle are about distinct sensors: at most one event per sensor |
| SensorDynamics.RunDrainsBattery | blockchain/Minifab/iot_smart_parking_iintegration_with_blockchain.py:238 | after `c` cycles every battery is exactly its start level less `c` times the drain, with no clamp |
| SensorDynamics.RunStatusFollowsBattery | blockchain/Minifab/iot_smart_parking_iintegration_with_blockchain.py:238-246 | after at least one cycle each status is the function of the battery level, never offline, and low battery iff start level less total drain is below 20 |
| SensorDynamics.RunKeepsIdentity | blockchain/Minifab/iot_smart_parking_iintegration_with_blockchain.py:264-284 | identifier, slot and location of every sensor survive any number of cycles |
| SensorDynamics.RunKeepsConfidenceInRange | blockchain/Minifab/iot_smart_parking_iintegration_with_blockchain.py:249-250 | sensor confidence that starts in [0.5, 1] stays there over any run (the jitter only touches events) |
| SensorDynamics.RunFleet | blockchain/Minifab/iot_smart_parking_iintegration_with_blockchain.py:302-305 | a run keeps the number of sensors; see `RunDrainsBattery`, `RunStatusFollowsBattery` and `RunKeepsIdentity` |
| SensorDynamics.RunEvents | blockchain/Minifab/iot_smart_parking_iintegration_with_blockchain.py:302-305 | no contract; see `CertainArrivalRun` and `IoTSensorSimulator.RunCycles` |
| SensorDynamics.CertainArrivalCycle | blockchain/Minifab/iot_smart_parking_iintegration_with_blockchain.py:214-231 | with arrival rate 1 and departure rate 0, one cycle of active sensors fills every slot and its events are arrivals about exactly the free sensors, in fleet order |
| SensorDynamics.FullFleetIsQuiet | blockchain/Minifab/iot_smart_parking_iintegration_with_blockchain.py:196-213 | with departure rate 0 a fully occupied fleet emits nothing and stays full |
| SensorDynamics.CertainArrivalRun | blockchain/Minifab/iot_smart_parking_iintegration_with_blockchain.py:302-305 | over any non-empty run with certain arrivals, no departures and batteries that stay above 20, every slot ends occupied and the run's events are arrivals about exactly the initially free sensors, in fleet order |
| EventQueue.TransactionQueue.constructor | blockchain/Minifab/iot_smart_parking_iintegration_with_blockchain.py:51 | a new queue is empty with no unfinished tasks |
| EventQueue.TransactionQueue.Put | blockchain/Minifab/iot_smart_parking_iintegration_with_blockchain.py:173 | `put` appends at the tail, opens one task and keeps every queued item an open task |
| EventQueue.TransactionQueue.Get | blockchain/Minifab/iot_smart_parking_iintegration_with_blockchain.py:111 | `get` removes and returns the head, or reports empty and changes nothing |
| EventQueue.TransactionQueue.TaskDone | blockchain/Minifab/iot_smart_parking_iintegration_with_blockchain.py:124 | `task_done` closes one task, and fails (Python's `ValueError`) exactly when none is open |
| Ledger.ParamStringRoundTrip | blockchain/Minifab/iot_smart_parking_iintegration_with_blockchain.py:80-81 | the parameter string of quote-free arguments parses back to the same slot, occupancy and location |
| Ledger.ParamStringComplete | blockchain/Minifab/iot_smart_parking_iintegration_with_blockchain.py:80-81 | every string the parser accepts is the parameter string of the quote-free arguments it yields |
| Ledger.ParamString | blockchain/Minifab/iot_smart_parking_iintegration_with_blockchain.py:80-81 | no contract; see `ParamStringRoundTrip` and `ParamStringComplete` |
| Ledger.LedgerCommand | blockchain/Minifab/iot_smart_parking_iintegration_with_blockchain.py:83-87 | the argument vector is the detected command followed by five arguments, starting with `invoke` and ending with the parameter string |
| Ledger.UpdateSucceeds | blockchain/Minifab/iot_smart_parking_iintegration_with_blockchain.py:77-105 | an update succeeds only when a ledger command exists, and then exactly when running it exits with status 0 |
| Ledger.DeliverEvent | blockchain/Minifab/iot_smart_parking_iintegration_with_blockchain.py:111-124 | one dequeued event costs one update call, and a second exactly when the first failed; both carry the event's slot, occupancy and location |
| Ledger.DeliveriesAlwaysFailing | blockchain/Minifab/iot_smart_parking_iintegration_with_blockchain.py:107-129 | with no command or a ledger that always fails, every event costs exactly two calls, all failing; nothing is retried further |
| Ledger.DeliveriesAlwaysSucceeding | blockchain/Minifab/iot_smart_parking_iintegration_with_blockchain.py:107-129 | with a ledger that always succeeds, the calls are one per event, in queue order, each successful |
| Ledger.FailThenSucceed | blockchain/Minifab/iot_smart_parking_iintegration_with_blockchain.py:118-122 | a first failure followed by an accepted retry gives exactly two calls, the second successful |
| Ledger.Deliveries | blockchain/Minifab/iot_smart_parking_iintegration_with_blockchain.py:107-129 | the consumer makes between one and two calls per event; see `DeliveriesAlwaysFailing` and `DeliveriesAlwaysSucceeding` |
| Ledger.IoTBlockchainConnector.constructor | blockchain/Minifab/iot_smart_parking_iintegration_with_blockchain.py:47-52 | chaincode name `parking`, the given detected command, an empty fresh queue with no unfinished tasks, not running, no calls made |
| Ledger.IoTBlockchainConnector.UpdateBlockchain | blockchain/Minifab/iot_smart_parking_iintegration_with_blockchain.py:77-105 | the result is `UpdateSucceeds` for this call's number, and the call is recorded with its arguments and result |
| Ledger.IoTBlockchainConnector.SubmitWithRetry | blockchain/Minifab/iot_smart_parking_iintegration_with_blockchain.py:112-122 | the calls made for an event are exactly those of `DeliverEvent`, numbered after all earlier calls |
| Ledger.IoTBlockchainConnector.ConsumeOne | blockchain/Minifab/iot_smart_parking_iintegration_with_blockchain.py:110-127 | on a non-empty queue: the head is removed, delivered and its task closed; on an empty queue nothing changes |
| Ledger.IoTBlockchainConnector.ProcessTransactionQueue | blockchain/Minifab/iot_smart_parking_iintegration_with_blockchain.py:107-129 | when running and stopped after `r` rounds, the first `min(r, queue length)` events are removed in FIFO order, their tasks closed and their calls made in order by the retry policy; when not running, nothing happens; the loop ends not running |
| Report.StatusCountsPartition | blockchain/Minifab/iot_smart_parking_iintegration_with_blockchain.py:335-337 | active, low-battery and offline counts add up to the number of sensors |
| Report.OccupancyCountsPartition | blockchain/Minifab/iot_smart_parking_iintegration_with_blockchain.py:340-341 | occupied and free counts add up to the number of sensors |
| Report.EventCountsBounded | blockchain/Minifab/iot_smart_parking_iintegration_with_blockchain.py:344-345 | arrivals plus departures never exceed the events in the history |
| Report.CountStatus | blockchain/Minifab/iot_smart_parking_iintegration_with_blockchain.py:335-337 | a status count never exceeds the fleet; see `StatusCountsPartition` |
| Report.CountOccupied | blockchain/Minifab/iot_smart_parking_iintegration_with_blockchain.py:340-341 | an occupancy count never exceeds the fleet; see `OccupancyCountsPartition` and `CountOccupiedAll` |
| Report.CountEvents | blockchain/Minifab/iot_smart_parking_iintegration_with_blockchain.py:344-345 | an event-type count never exceeds the history; see `EventCountsBounded` and `CountEventsAppend` |
| Report.CountEventsAppend | blockchain/Minifab/iot_smart_parking_iintegration_with_blockchain.py:344-345 | counting events by type distributes over a history that grew by appending |
| Report.CountEventsUniform | blockchain/Minifab/iot_smart_parking_iintegration_with_blockchain.py:344-345 | a history of one event type counts every event as that type and none as any other |
| Report.ArrivalsAppended | blockchain/Minifab/iot_smart_parking_iintegration_with_blockchain.py:344-345 | appending arrivals to a history adds exactly that many arrivals and no departure |
| Report.CountOccupiedAll | blockchain/Minifab/iot_smart_parking_iintegration_with_blockchain.py:340-341 | a fully occupied fleet counts every sensor occupied and none free |
| Report.Tally | blockchain/Minifab/iot_smart_parking_iintegration_with_blockchain.py:381-395 | no contract; see `BreakdownCounts` and `IoTSensorSimulator.TallySensor` |
| Report.BreakdownOf | blockchain/Minifab/iot_smart_parking_iintegration_with_blockchain.py:378-395 | the breakdown lists each location once, and has an entry for exactly the listed locations |
| Report.BreakdownCounts | blockchain/Minifab/iot_smart_parking_iintegration_with_blockchain.py:378-395 | a location has an entry iff some sensor is there, and its entry holds the number of sensors there, of those occupied and of those active |
| Report.BreakdownBounds | blockchain/Minifab/iot_smart_parking_iintegration_with_blockchain.py:397-402 | every listed location has at least one slot (the zero-slot rate branch is dead), and occupied and active counts never exceed its slots |
| Report.BreakdownTotal | blockchain/Minifab/iot_smart_parking_iintegration_with_blockchain.py:378-395 | the slots of all locations add up to the number of sensors |
| Report.ReportOf | blockchain/Minifab/iot_smart_parking_iintegration_with_blockchain.py:331-376 | fails exactly for an empty fleet (the averages divide by zero); otherwise the total is the fleet size, the status and occupancy counts partition it, the event total is the history length and bounds arrivals plus departures, and the breakdown is well formed and sums to the total |
| Simulator.IoTSensorSimulator.CreatedLocations | blockchain/Minifab/iot_smart_parking_iintegration_with_blockchain.py:148-157 | in a fleet created from scratch, sensor `i` stands at location `i mod 12`, so sensors twelve apart share a location |
| Simulator.LocationReached | blockchain/Minifab/iot_smart_parking_iintegration_with_blockchain.py:148-157 | any twelve consecutive sensors cover all twelve locations |
| Simulator.InitialState | blockchain/Minifab/iot_smart_parking_iintegration_with_blockchain.py:154-168 | sensor `i` gets identifiers numbered `i + 1`, location `i mod 12` and status active |
| Simulator.InitialStateConsistent | blockchain/Minifab/iot_smart_parking_iintegration_with_blockchain.py:159-168 | with a battery drawn from [80, 100], the initial active status is the one the battery implies, and the confidence lies in [0.5, 1] |
| Simulator.InitEventMatchesSensor | blockchain/Minifab/iot_smart_parking_iintegration_with_blockchain.py:173-183 | the initialization event repeats the new sensor's identity, location, occupancy and confidence |
| Simulator.InitEvent | blockchain/Minifab/iot_smart_parking_iintegration_with_blockchain.py:173-183 | the event announced for a created sensor has type initialization; see `InitEventMatchesSensor` |
| Simulator.CreatedIdsDistinct | blockchain/Minifab/iot_smart_parking_iintegration_with_blockchain.py:154-155 | `create_sensors` assigns pairwise distinct identifiers |
| Simulator.InsertAllFresh | blockchain/Minifab/iot_smart_parking_iintegration_with_blockchain.py:170 | inserting distinct new keys into an empty dictionary lists them in insertion order |
| Simulator.InsertAllDistinct | blockchain/Minifab/iot_smart_parking_iintegration_with_blockchain.py:170 | repeated dictionary insertion never lists a key twice |
| Simulator.NoOfflineAfterRun | blockchain/Minifab/iot_smart_parking_iintegration_with_blockchain.py:241-246 | after one cycle or more the report counts no offline sensor |
| Simulator.ReportAfterArrivals | blockchain/Minifab/iot_smart_parking_iintegration_with_blockchain.py:331-346 | for a fully occupied fleet whose history grew by arrivals only, the report counts every slot occupied, none free, the arrivals added to the earlier ones and the departures unchanged |
| Simulator.CertainArrivalReport | blockchain/Minifab/iot_smart_parking_iintegration_with_blockchain.py:302-346 | after a run with certain arrivals and no departures, the report shows every slot occupied, none free, and one more arrival per initially free sensor |
| Simulator.IoTSensorSimulator.constructor | blockchain/Minifab/iot_smart_parking_iintegration_with_blockchain.py:132-142 | no sensors, empty history, not active, and the constructor's four rates |
| Simulator.IoTSensorSimulator.CreatedFleet | blockchain/Minifab/iot_smart_parking_iintegration_with_blockchain.py:144-185 | creating `n` sensors in an empty simulator yields exactly sensors `0 .. n-1` in their initial states, in index order |
| Simulator.IoTSensorSimulator.CreateSensors | blockchain/Minifab/iot_smart_parking_iintegration_with_blockchain.py:144-185 | for `max(n, 0)` indices: the keys are the old keys with the new identifiers inserted in order; each created key holds a new sensor in its initial state; other sensors are kept; one initialization event per index is queued in index order; the history is untouched |
| Simulator.IoTSensorSimulator.CreateSensor | blockchain/Minifab/iot_smart_parking_iintegration_with_blockchain.py:154-183 | one iteration: a new sensor in its initial state stored under its identifier, others kept, its initialization event queued |
| Simulator.IoTSensorSimulator.AddSensor | blockchain/Minifab/iot_smart_parking_iintegration_with_blockchain.py:170 | storing under a present key replaces the value in place; a new key goes last; keys stay distinct |
| Simulator.IoTSensorSimulator.SimulateSensorIssues | blockchain/Minifab/iot_smart_parking_iintegration_with_blockchain.py:235-250 | the sensor's new fields are those `SensorIssues` gives |
| Simulator.IoTSensorSimulator.SimulateCarMovement | blockchain/Minifab/iot_smart_parking_iintegration_with_blockchain.py:187-233 | the sensor's new fields and the returned event are those `CarMovement` gives |
| Simulator.IoTSensorSimulator.GenerateSensorHeartbeat | blockchain/Minifab/iot_smart_parking_iintegration_with_blockchain.py:252-262 | the heartbeat snapshots the sensor's current fields, stamped with the clock reading |
| Simulator.IoTSensorSimulator.CycleSensor | blockchain/Minifab/iot_smart_parking_iintegration_with_blockchain.py:268-282 | one sensor's turn follows `CycleStep`; its event (if any) is appended to the history, and queued with one more open task exactly when its confidence exceeds 0.75 |
| Simulator.IoTSensorSimulator.RunSimulationCycle | blockchain/Minifab/iot_smart_parking_iintegration_with_blockchain.py:264-284 | every sensor takes one turn in dictionary order (the fleet becomes `CycleFleet`); every emitted event is appended to the history in order; exactly those above 0.75 are queued in order; the result is their number; the sensor set is unchanged |
| Simulator.IoTSensorSimulator.TallySensor | blockchain/Minifab/iot_smart_parking_iintegration_with_blockchain.py:381-395 | one pass of the breakdown loop counts the sensor into the table (`Tally`) |
| Simulator.IoTSensorSimulator.GetLocationBreakdown | blockchain/Minifab/iot_smart_parking_iintegration_with_blockchain.py:378-404 | the table is `BreakdownOf` the fleet, whose counts are proved in `BreakdownCounts`, `BreakdownBounds` and `BreakdownTotal` |
| Simulator.IoTSensorSimulator.GenerateSimulationReport | blockchain/Minifab/iot_smart_parking_iintegration_with_blockchain.py:331-376 | the report is `ReportOf` the fleet and the history, a failure exactly when there are no sensors |
| Simulator.IoTSensorSimulator.RunCycles | blockchain/Minifab/iot_smart_parking_iintegration_with_blockchain.py:290-318 | both run flags raised; after one cycle per entry of `ticks` the fleet is `RunFleet`, the history grew by `RunEvents` and the queue by the qualifying ones, in order |
| Simulator.IoTSensorSimulator.Simulate | blockchain/Minifab/iot_smart_parking_iintegration_with_blockchain.py:286-326 | the cycles as in `RunCycles`, then the consumer delivers the first `min(rounds, queue length)` queued events in order by the retry policy; both flags end lowered and the sensor set is unchanged |
| Simulator.IoTSensorSimulator.StartSimulation | blockchain/Minifab/iot_smart_parking_iintegration_with_blockchain.py:286-329 | the run as in `Simulate` (fleet, history, queue, unfinished tasks and ledger calls), and the returned report is `ReportOf` the final fleet and history |

## Left out

- `detect_minifab_command` probes the file system and runs `which`. Its result is a constructor parameter (`minifabCmd`, with `None` for no command found).
- `subprocess.run` is the `LedgerOracle` parameter. The 30-second timeout and any other exception fold into its `Raised` outcome. The captured `stderr` only feeds a log line.
- The `random` module is not modelled. Its draws are the `Seed` and `Tick` parameters, and the ranges Python draws from are stated as `ValidSeed` and `ValidTick`.
- `datetime.now()` becomes a clock reading carried in those parameters, as an opaque natural `Timestamp`. The report timestamp's `isoformat` text is not modelled.
- Float arithmetic: battery level and confidence are exact `real`s, so IEEE rounding of the repeated subtraction is not modelled.
- Logging and its configuration are not modelled: every `logger` call, and the `cycle_count` and `total_events` tallies that only feed log lines. Each `update_blockchain` call is recorded in `attempts`, which stands for its success or failure log line.
- StartSimulation: the consumer daemon thread and the wall-clock loop are not modelled as such. The driver runs one cycle per entry of `ticks`. The consumer is serialised after the cycles and goes round `consumerRounds` times before the flag it polls is cleared. Interleavings of the two threads are not modelled.
- StartSimulation: the `time.sleep` calls and the `KeyboardInterrupt` handler are left out, and so are interrupts. Every modelled cycle runs to completion. Two states an interrupt can leave behind are therefore not modelled: a cycle in which some sensors have taken their turn and others have not, and an event appended to the history but not yet put on the queue.
- StartSimulation: the simulator's rates are fixed at construction to the constructor's four values. So the certain-arrival scenario (`CertainArrivalRun`, `CertainArrivalReport`), stated for any rates, cannot be reached through the class's `RunCycles` or `StartSimulation`.
- ProcessTransactionQueue: the `get(timeout=1)` wait and the `time.sleep(2)` back-off are left out. The point at which the other thread clears `is_running` is the `stopAfter` parameter.
- GenerateSimulationReport: the float averages of confidence and battery, and the percentage strings for sensor health and occupancy, are not computed. Only the integer counts, the breakdown and the timestamp are modelled.
- GetLocationBreakdown: the per-location `occupancy_rate` strings are not computed. `BreakdownBounds` proves their zero-slot branch is never taken.
- `self.sensors` is modelled as the sequence of its values in insertion order. Each value's key is its own `sensor_id`, which is how `create_sensors` stores it.
- `IoTDashboard`, `main` (with `input()` and the JSON report file), the Flask API server and the Go chaincode are not part of this model.
