/** The sensor simulator: it owns the sensors, keyed by identifier in a
    dictionary whose insertion order is the order every loop visits them,
    keeps the history of emitted events, and feeds the connector's queue.
    Random draws and clock readings arrive as parameters: one `Seed` per
    created sensor and one `Tick` per sensor per cycle. */
module Simulator {
  import opened Wrappers
  import opened Records
  import opened IdFormat
  import opened SensorDynamics
  import opened EventQueue
  import opened Ledger
  import opened Report

  /** The twelve locations, assigned round-robin. */
  const Locations: seq<string> := [
    "Mall Entrance", "Mall Exit", "Ground Floor A", "Ground Floor B",
    "First Floor A", "First Floor B", "Second Floor A", "Second Floor B",
    "VIP Section", "Disabled Parking", "Electric Vehicle", "Visitor Parking"]

  /** Sensor `i` (counting from 0) gets location number `i mod 12`. */
  function LocationIndex(i: nat): (k: nat)
    ensures k < |Locations|
  {
    i % 12
  }

  function LocationOf(i: nat): string {
    Locations[LocationIndex(i)]
  }

  /** Sensor `i` and sensor `i + 12` share a location. */
  lemma LocationsPeriodic(i: nat)
    ensures LocationIndex(i + |Locations|) == LocationIndex(i)
  {
  }

  /** Every run of twelve consecutive sensors covers every location. */
  lemma LocationReached(i: nat, a: nat) returns (j: nat)
    requires a < |Locations|
    ensures i <= j < i + |Locations| && LocationIndex(j) == a && LocationOf(j) == Locations[a]
  {
    var q, r := i / 12, i % 12;
    j := if a >= r then 12 * q + a else 12 * (q + 1) + a;
  }

  /** The draws behind one created sensor: `uniform(80, 100)` battery,
      `choice([True, False])` occupancy, `uniform(0.85, 0.99)` confidence,
      and the two clock readings (the sensor's and its event's). */
  datatype Seed = Seed(batteryLevel: real, occupied: bool, confidence: real,
                       readingTime: Timestamp, eventTime: Timestamp)

  predicate ValidSeed(seed: Seed) {
    80.0 <= seed.batteryLevel <= 100.0 && 0.85 <= seed.confidence <= 0.99
  }

  /** The sensor created at loop index `i`: identifiers numbered from 1,
      zero-padded to three digits. */
  function InitialState(i: nat, seed: Seed): (s: SensorState)
    ensures s.sensorId == SensorId(i + 1) && s.slotId == SlotId(i + 1)
    ensures s.location == LocationOf(i) && s.status == Active
  {
    SensorState(SensorId(i + 1), SlotId(i + 1), LocationOf(i), seed.batteryLevel,
                seed.readingTime, Active, seed.occupied, seed.confidence)
  }

  /** A created sensor starts active, and with a battery drawn from the
      seeding range that is also the status its battery level implies; its
      confidence is in the range the health updates keep. */
  lemma InitialStateConsistent(i: nat, seed: Seed)
    requires ValidSeed(seed)
    ensures StatusFor(InitialState(i, seed).batteryLevel) == InitialState(i, seed).status
    ensures ConfidenceFloor <= InitialState(i, seed).confidence <= 1.0
  {
  }

  /** The initialization event queued for the sensor created at index `i`. */
  function InitEvent(i: nat, seed: Seed): (e: ParkingEvent)
    ensures e.eventType == Initialization
  {
    ParkingEvent(SensorId(i + 1), SlotId(i + 1), LocationOf(i), seed.occupied,
                 seed.eventTime, seed.confidence, Initialization)
  }

  /** The initialization event mirrors the sensor it announces. */
  lemma InitEventMatchesSensor(i: nat, seed: Seed)
    ensures var e := InitEvent(i, seed); var s := InitialState(i, seed);
      && e.sensorId == s.sensorId && e.slotId == s.slotId && e.location == s.location
      && e.occupied == s.occupied && e.confidence == s.confidence
  {
  }

  /** `range(num_sensors)` is empty for a negative count. */
  function CreationCount(numSensors: int): nat {
    if numSensors <= 0 then 0 else numSensors
  }

  /** The identifiers `create_sensors(n)` assigns, in creation order. */
  function CreatedIds(n: nat): (ids: seq<string>)
    ensures |ids| == n
  {
    seq(n, i requires 0 <= i < n => SensorId(i + 1))
  }

  lemma CreatedIdsDistinct(n: nat)
    ensures Distinct(CreatedIds(n))
  {
    forall i, j | 0 <= i < j < n ensures CreatedIds(n)[i] != CreatedIds(n)[j] {
      SensorIdInjective(i + 1, j + 1);
    }
  }

  function InitEvents(n: nat, seeds: nat -> Seed): (es: seq<ParkingEvent>)
    ensures |es| == n
  {
    seq(n, i requires 0 <= i < n => InitEvent(i, seeds(i)))
  }

  /** The events of the first `i + 1` sensors extend those of the first `i`
      by the `i`-th sensor's event, if any. */
  lemma EmittedExtend(fleet: seq<SensorState>, rates: Rates, ticks: seq<Tick>, i: nat)
    requires |ticks| == |fleet| && i < |fleet|
    ensures Emitted(fleet[..i + 1], rates, ticks[..i + 1])
      == Emitted(fleet[..i], rates, ticks[..i]) + OptionToSeq(CycleStep(fleet[i], rates, ticks[i]).event)
  {
    assert fleet[..i + 1][..i] == fleet[..i];
    assert ticks[..i + 1][..i] == ticks[..i];
  }

  lemma InitEventsSnoc(i: nat, seeds: nat -> Seed)
    ensures InitEvents(i + 1, seeds) == InitEvents(i, seeds) + [InitEvent(i, seeds(i))]
  {
  }

  /** Python dictionary insertion order: assigning to a key already present
      keeps its position, a new key goes last. */
  function InsertKey(order: seq<string>, k: string): (r: seq<string>)
  {
    if k in order then order else order + [k]
  }

  function InsertAll(order: seq<string>, ks: seq<string>): (r: seq<string>)
  {
    if ks == [] then order else InsertKey(InsertAll(order, ks[..|ks| - 1]), ks[|ks| - 1])
  }

  /** Inserting distinct new keys into an empty dictionary lists them in
      insertion order. */
  lemma {:induction false} InsertAllFresh(ks: seq<string>)
    requires Distinct(ks)
    ensures InsertAll([], ks) == ks
  {
    if ks != [] {
      var n := |ks| - 1;
      var prefix := ks[..n];
      assert Distinct(prefix) by {
        forall i, j | 0 <= i < j < n ensures prefix[i] != prefix[j] {
          assert prefix[i] == ks[i] && prefix[j] == ks[j];
        }
      }
      InsertAllFresh(prefix);
      assert ks[n] !in prefix by {
        forall i | 0 <= i < n ensures prefix[i] != ks[n] {
          assert prefix[i] == ks[i];
        }
      }
      assert InsertAll([], ks) == InsertKey(prefix, ks[n]);
      assert prefix + [ks[n]] == ks;
    }
  }

  /** Repeated insertion never lists a key twice. */
  lemma {:induction false} InsertAllDistinct(order: seq<string>, ks: seq<string>)
    requires Distinct(order)
    ensures Distinct(InsertAll(order, ks))
  {
    if ks != [] {
      var prior := InsertAll(order, ks[..|ks| - 1]);
      var k := ks[|ks| - 1];
      InsertAllDistinct(order, ks[..|ks| - 1]);
      if k !in prior {
        var r := prior + [k];
        forall i, j | 0 <= i < j < |r| ensures r[i] != r[j] {
          if j == |prior| {
            assert r[i] == prior[i] && prior[i] in prior;
          } else {
            assert r[i] == prior[i] && r[j] == prior[j];
          }
        }
        assert InsertAll(order, ks) == r;
      } else {
        assert InsertAll(order, ks) == prior;
      }
    }
  }

  /** After one cycle or more no sensor is reported offline. */
  lemma {:induction false} NoOfflineAfterRun(fleet: seq<SensorState>, rates: Rates, ticks: seq<seq<Tick>>,
                                             history: seq<ParkingEvent>, now: Timestamp)
    requires TicksFit(fleet, ticks) && |ticks| >= 1 && fleet != []
    ensures ReportOf(RunFleet(fleet, rates, ticks), history, now).value.offlineSensors == 0
  {
    var r := RunFleet(fleet, rates, ticks);
    forall j | 0 <= j < |r| ensures r[j].status != Offline {
      RunStatusFollowsBattery(fleet, rates, ticks, j);
    }
    NoneOffline(r);
  }

  /** The report of a fully occupied fleet whose history grew by arrivals only. */
  lemma ReportAfterArrivals(fleet: seq<SensorState>, history: seq<ParkingEvent>, arrivals: seq<ParkingEvent>,
                            now: Timestamp)
    requires fleet != [] && forall j | 0 <= j < |fleet| :: fleet[j].occupied
    requires forall e | e in arrivals :: e.eventType == Arrival
    ensures var r := ReportOf(fleet, history + arrivals, now);
      && r.Success?
      && r.value.occupiedSlots == |fleet| && r.value.freeSlots == 0
      && r.value.carArrivals == CountEvents(history, Arrival) + |arrivals|
      && r.value.carDepartures == CountEvents(history, Departure)
  {
    CountOccupiedAll(fleet);
    ArrivalsAppended(history, arrivals);
    ReportFields(fleet, history + arrivals, now);
  }

  /** The certain-arrival run as the report shows it: every slot occupied,
      none free, and one arrival added per initially free slot to whatever
      history came before, with no departure added. */
  lemma CertainArrivalReport(fleet: seq<SensorState>, rates: Rates, ticks: seq<seq<Tick>>,
                             history: seq<ParkingEvent>, now: Timestamp)
    requires fleet != [] && TicksFit(fleet, ticks) && ticks != []
    requires rates.carArrival == 1.0 && rates.carDeparture == 0.0 && rates.batteryDrain >= 0.0
    requires StaysActive(fleet, rates, |ticks|) && ValidTicks(ticks)
    ensures var r := ReportOf(RunFleet(fleet, rates, ticks), history + RunEvents(fleet, rates, ticks), now);
      && r.Success?
      && r.value.occupiedSlots == |fleet| && r.value.freeSlots == 0
      && r.value.carArrivals == CountEvents(history, Arrival) + |FreeIds(fleet)|
      && r.value.carDepartures == CountEvents(history, Departure)
  {
    var after := RunFleet(fleet, rates, ticks);
    var events := RunEvents(fleet, rates, ticks);
    CertainArrivalRun(fleet, rates, ticks);
    assert |events| == |FreeIds(fleet)| by {
      assert |EventIds(events)| == |events|;
    }
    ReportAfterArrivals(after, history, events, now);
  }

  lemma {:induction false} NoneOffline(fleet: seq<SensorState>)
    requires forall j | 0 <= j < |fleet| :: fleet[j].status != Offline
    ensures CountStatus(fleet, Offline) == 0
  {
    if fleet != [] {
      NoneOffline(fleet[..|fleet| - 1]);
    }
  }

  /** The keys of the sensor dictionary: each sensor's own identifier. */
  function Keys(sensors: seq<IoTSensor>): (keys: seq<string>)
    ensures |keys| == |sensors|
  {
    seq(|sensors|, j requires 0 <= j < |sensors| => sensors[j].sensorId)
  }

  /** `self.sensors`, a dictionary from identifier to sensor, is held as the
      sequence of its values in insertion order; the key of each value is
      the value's own `sensorId`, so keys are distinct exactly when the
      identifiers are. */
  class IoTSensorSimulator {
    var sensors: seq<IoTSensor>
    const blockchain: IoTBlockchainConnector
    var eventHistory: seq<ParkingEvent>
    var simulationActive: bool
    const rates: Rates

    /** No key is listed twice (and hence no sensor object either). */
    ghost predicate Indexed()
      reads this
    {
      Distinct(Keys(sensors))
    }

    ghost predicate Valid()
      reads this, blockchain, blockchain.transactionQueue
    {
      Indexed() && blockchain.Valid()
    }

    /** The sensors' states in dictionary order. */
    function Fleet(): (fleet: seq<SensorState>)
      reads this`sensors, sensors
      ensures |fleet| == |sensors|
    {
      var ss := sensors;
      seq(|ss|, j requires 0 <= j < |ss| reads ss => ss[j].State())
    }

    /** The fleet lists the sensors by their keys, so its identifiers are
        distinct. */
    lemma FleetIds()
      requires Indexed()
      ensures SensorIds(Fleet()) == Keys(sensors) && Distinct(SensorIds(Fleet()))
    {
      var fleet := Fleet();
      forall j | 0 <= j < |sensors| ensures fleet[j].sensorId == Keys(sensors)[j] {
      }
    }

    constructor (blockchain: IoTBlockchainConnector)
      ensures this.blockchain == blockchain && rates == DefaultRates
      ensures sensors == [] && eventHistory == [] && !simulationActive
    {
      this.blockchain := blockchain;
      rates := DefaultRates;
      sensors := [];
      eventHistory := [];
      simulationActive := false;
    }

    /** `create_sensors`: one new sensor per index, stored under its
        identifier (replacing any sensor stored there before, in place), and
        one initialization event queued for it, in index order. */
    method CreateSensors(numSensors: int, seeds: nat -> Seed)
      requires Valid()
      modifies this, blockchain.transactionQueue
      ensures Valid()
      ensures var n := CreationCount(numSensors);
        && Keys(sensors) == InsertAll(old(Keys(sensors)), CreatedIds(n))
        && CreatedUpTo(sensors, CreatedIds(n), seeds, n, old(sensors))
        && KeptBeyond(sensors, CreatedIds(n), n, old(sensors))
        && blockchain.transactionQueue.items == old(blockchain.transactionQueue.items) + InitEvents(n, seeds)
        && blockchain.transactionQueue.unfinishedTasks == old(blockchain.transactionQueue.unfinishedTasks) + n
      ensures forall j | 0 <= j < |sensors| && sensors[j] !in old(sensors) :: fresh(sensors[j])
      ensures eventHistory == old(eventHistory) && simulationActive == old(simulationActive)
    {
      var n := CreationCount(numSensors);
      ghost var ids := CreatedIds(n);
      ghost var keys0 := Keys(sensors);
      ghost var sensors0 := sensors;
      ghost var items0 := blockchain.transactionQueue.items;
      ghost var unfinished0 := blockchain.transactionQueue.unfinishedTasks;
      CreatedIdsDistinct(n);
      for i := 0 to n
        invariant Valid()
        invariant Keys(sensors) == InsertAll(keys0, ids[..i])
        invariant CreatedUpTo(sensors, ids, seeds, i, sensors0) && KeptBeyond(sensors, ids, i, sensors0)
        invariant forall j | 0 <= j < |sensors| && sensors[j] !in sensors0 :: fresh(sensors[j])
        invariant blockchain.transactionQueue.items == items0 + InitEvents(i, seeds)
        invariant blockchain.transactionQueue.unfinishedTasks == unfinished0 + i
        invariant eventHistory == old(eventHistory) && simulationActive == old(simulationActive)
      {
        ghost var prev := sensors;
        CreateNext(i, ids, seeds, keys0, sensors0);
        forall j | 0 <= j < |sensors| && sensors[j] !in sensors0 ensures fresh(sensors[j]) {
          if sensors[j] in prev {
            var p :| 0 <= p < |prev| && prev[p] == sensors[j];
          }
        }
        InitEventsSnoc(i, seeds);
      }
      assert ids[..n] == ids;
    }

    /** The sensors of `ss` whose keys are among the first `i` created
        identifiers are new objects in their initial state. */
    ghost predicate CreatedUpTo(ss: seq<IoTSensor>, ids: seq<string>, seeds: nat -> Seed, i: nat, before: seq<IoTSensor>)
      requires i <= |ids|
      reads ss
    {
      forall j, k | 0 <= j < |ss| && 0 <= k < i && ss[j].sensorId == ids[k] ::
        ss[j] !in before && ss[j].State() == InitialState(k, seeds(k))
    }

    /** The sensors of `ss` whose keys are not among the first `i` created
        identifiers were there before. */
    ghost predicate KeptBeyond(ss: seq<IoTSensor>, ids: seq<string>, i: nat, before: seq<IoTSensor>)
      requires i <= |ids|
    {
      forall j | 0 <= j < |ss| && ss[j].sensorId !in ids[..i] :: ss[j] in before
    }

    lemma CreatedUpToStep(prev: seq<IoTSensor>, next: seq<IoTSensor>, ids: seq<string>, seeds: nat -> Seed,
                          i: nat, before: seq<IoTSensor>)
      requires i < |ids| && Distinct(ids)
      requires CreatedUpTo(prev, ids, seeds, i, before)
      requires forall j | 0 <= j < |next| && next[j].sensorId != ids[i] :: j < |prev| && next[j] == prev[j]
      requires forall j | 0 <= j < |next| && next[j].sensorId == ids[i] ::
        next[j] !in before && next[j].State() == InitialState(i, seeds(i))
      ensures CreatedUpTo(next, ids, seeds, i + 1, before)
    {
      forall j, k | 0 <= j < |next| && 0 <= k < i + 1 && next[j].sensorId == ids[k]
        ensures next[j] !in before && next[j].State() == InitialState(k, seeds(k))
      {
        if k < i {
          assert ids[k] != ids[i];
          assert j < |prev| && next[j] == prev[j];
          assert prev[j].sensorId == ids[k];
        }
      }
    }

    lemma KeptBeyondStep(prev: seq<IoTSensor>, next: seq<IoTSensor>, ids: seq<string>, i: nat, before: seq<IoTSensor>)
      requires i < |ids|
      requires KeptBeyond(prev, ids, i, before)
      requires forall j | 0 <= j < |next| && next[j].sensorId != ids[i] :: j < |prev| && next[j] == prev[j]
      ensures KeptBeyond(next, ids, i + 1, before)
    {
      assert ids[..i + 1] == ids[..i] + [ids[i]];
      forall j | 0 <= j < |next| && next[j].sensorId !in ids[..i + 1] ensures next[j] in before {
        assert next[j].sensorId != ids[i];
        assert j < |prev| && next[j] == prev[j];
      }
    }

    /** One iteration of the creation loop, with the facts it preserves. */
    method CreateNext(i: nat, ghost ids: seq<string>, seeds: nat -> Seed,
                      ghost keys0: seq<string>, ghost sensors0: seq<IoTSensor>)
      requires Valid() && i < |ids| && ids == CreatedIds(|ids|) && Distinct(ids)
      requires Keys(sensors) == InsertAll(keys0, ids[..i])
      requires CreatedUpTo(sensors, ids, seeds, i, sensors0) && KeptBeyond(sensors, ids, i, sensors0)
      modifies this`sensors, blockchain.transactionQueue
      ensures Valid()
      ensures Keys(sensors) == InsertAll(keys0, ids[..i + 1])
      ensures CreatedUpTo(sensors, ids, seeds, i + 1, sensors0) && KeptBeyond(sensors, ids, i + 1, sensors0)
      ensures forall j | 0 <= j < |sensors| && sensors[j] !in old(sensors) :: fresh(sensors[j])
      ensures blockchain.transactionQueue.items == old(blockchain.transactionQueue.items) + [InitEvent(i, seeds(i))]
      ensures blockchain.transactionQueue.unfinishedTasks == old(blockchain.transactionQueue.unfinishedTasks) + 1
    {
      ghost var prev := sensors;
      CreateSensor(i, seeds(i));
      assert ids[i] == SensorId(i + 1);
      assert ids[..i + 1] == ids[..i] + [ids[i]];
      assert CreatedUpTo(prev, ids, seeds, i, sensors0);
      CreatedUpToStep(prev, sensors, ids, seeds, i, sensors0);
      KeptBeyondStep(prev, sensors, ids, i, sensors0);
    }

    /** Creating sensors in an empty simulator yields exactly the created
        sensors, in creation order. */
    lemma CreatedFleet(n: nat, seeds: nat -> Seed)
      requires Keys(sensors) == InsertAll([], CreatedIds(n))
      requires CreatedUpTo(sensors, CreatedIds(n), seeds, n, [])
      ensures Fleet() == seq(n, i requires 0 <= i => InitialState(i, seeds(i)))
    {
      CreatedIdsDistinct(n);
      InsertAllFresh(CreatedIds(n));
      var fleet := Fleet();
      var expected := seq(n, i requires 0 <= i => InitialState(i, seeds(i)));
      forall j | 0 <= j < n ensures fleet[j] == expected[j] {
        assert Keys(sensors)[j] == CreatedIds(n)[j];
      }
    }

    /** In a fleet created from scratch, the sensor at position `i` stands at
        location `i mod 12`, so sensors twelve apart share a location. */
    lemma CreatedLocations(n: nat, seeds: nat -> Seed, i: nat)
      requires Keys(sensors) == InsertAll([], CreatedIds(n))
      requires CreatedUpTo(sensors, CreatedIds(n), seeds, n, [])
      requires i < n
      ensures |Fleet()| == n
      ensures Fleet()[i].location == Locations[i % |Locations|]
      ensures i + |Locations| < n ==> Fleet()[i + |Locations|].location == Fleet()[i].location
    {
      CreatedFleet(n, seeds);
      assert Fleet()[i] == InitialState(i, seeds(i));
      if i + |Locations| < n {
        assert Fleet()[i + |Locations|] == InitialState(i + |Locations|, seeds(i + |Locations|));
        LocationsPeriodic(i);
      }
    }

    /** `simulate_sensor_issues`, on the sensor object in place; the status
        chain is `StatusFor`, whose offline branch is dead. */
    method SimulateSensorIssues(sensor: IoTSensor, errorRoll: real)
      modifies sensor
      ensures sensor.State() == SensorIssues(old(sensor.State()), rates, errorRoll)
    {
      sensor.batteryLevel := sensor.batteryLevel - rates.batteryDrain;
      sensor.status := StatusFor(sensor.batteryLevel);
      if errorRoll < rates.sensorError {
        sensor.confidence := Max(ConfidenceFloor, sensor.confidence - ErrorPenalty);
      }
    }

    /** `simulate_car_movement`, on the sensor object in place; the event
        it returns, if any, is the one the movement function emits. */
    method SimulateCarMovement(sensor: IoTSensor, tick: Tick) returns (event: Option<ParkingEvent>)
      modifies sensor
      ensures var m := CarMovement(old(sensor.State()), rates, tick);
        sensor.State() == m.sensor && event == m.event
    {
      var currentTime := tick.now;
      if sensor.status != Active {
        return None;
      }
      if sensor.occupied {
        if tick.moveRoll < rates.carDeparture {
          sensor.occupied := false;
          sensor.lastReading := currentTime;
          var confidence := Max(EventConfidenceFloor, sensor.confidence - tick.jitter);
          return Some(ParkingEvent(sensor.sensorId, sensor.slotId, sensor.location, false,
                                   currentTime, confidence, Departure));
        }
      } else {
        if tick.moveRoll < rates.carArrival {
          sensor.occupied := true;
          sensor.lastReading := currentTime;
          var confidence := Max(EventConfidenceFloor, sensor.confidence - tick.jitter);
          return Some(ParkingEvent(sensor.sensorId, sensor.slotId, sensor.location, true,
                                   currentTime, confidence, Arrival));
        }
      }
      return None;
    }

    /** `generate_sensor_heartbeat`: reads the sensor, changes nothing. */
    method GenerateSensorHeartbeat(sensor: IoTSensor, now: Timestamp) returns (event: ParkingEvent)
      ensures event == HeartbeatEvent(sensor.State(), now)
    {
      event := ParkingEvent(sensor.sensorId, sensor.slotId, sensor.location, sensor.occupied,
                            now, sensor.confidence, EventType.Heartbeat);
    }

    /** One sensor's turn in `run_simulation_cycle`: health update,
        movement check, and for an emitted event the history entry and, above
        the confidence threshold, the queue entry. */
    method CycleSensor(sensor: IoTSensor, tick: Tick) returns (queued: bool)
      requires blockchain.Valid()
      modifies sensor, this`eventHistory, blockchain.transactionQueue
      ensures blockchain.Valid()
      ensures var m := CycleStep(old(sensor.State()), rates, tick);
        && sensor.State() == m.sensor
        && eventHistory == old(eventHistory) + OptionToSeq(m.event)
        && blockchain.transactionQueue.items == old(blockchain.transactionQueue.items) + Qualifying(OptionToSeq(m.event))
        && queued == (|Qualifying(OptionToSeq(m.event))| == 1)
        && blockchain.transactionQueue.unfinishedTasks
             == old(blockchain.transactionQueue.unfinishedTasks) + |Qualifying(OptionToSeq(m.event))|
    {
      SimulateSensorIssues(sensor, tick.errorRoll);
      var event := SimulateCarMovement(sensor, tick);
      queued := false;
      if event.Some? {
        eventHistory := eventHistory + [event.value];
        if event.value.confidence > SubmitThreshold {
          blockchain.transactionQueue.Put(event.value);
          queued := true;
        }
        assert OptionToSeq(event) == [event.value];
        assert Qualifying([event.value]) == if queued then [event.value] else [];
      }
    }

    /** The turn of sensor `i`: that sensor alone changes, and the history
        and the queue grow by what it emits. */
    method StepSensor(i: nat, ticks: seq<Tick>) returns (queued: bool)
      requires Valid() && |ticks| == |sensors| && i < |sensors|
      modifies sensors[i], this`eventHistory, blockchain.transactionQueue
      ensures Valid()
      ensures var m := CycleStep(old(Fleet())[i], rates, ticks[i]);
        var emitted := OptionToSeq(m.event);
        && Fleet() == old(Fleet())[i := m.sensor]
        && eventHistory == old(eventHistory) + emitted
        && blockchain.transactionQueue.items == old(blockchain.transactionQueue.items) + Qualifying(emitted)
        && queued == (|Qualifying(emitted)| == 1)
        && blockchain.transactionQueue.unfinishedTasks
             == old(blockchain.transactionQueue.unfinishedTasks) + |Qualifying(emitted)|
    {
      ghost var before := Fleet();
      assert forall j | 0 <= j < |sensors| && j != i :: sensors[j] != sensors[i] by {
        forall j | 0 <= j < |sensors| && j != i ensures sensors[j] != sensors[i] {
          assert Keys(sensors)[j] != Keys(sensors)[i];
        }
      }
      queued := CycleSensor(sensors[i], ticks[i]);
      assert Fleet() == before[i := sensors[i].State()] by {
        forall j | 0 <= j < |sensors| ensures Fleet()[j] == before[i := sensors[i].State()][j] {
        }
      }
    }

    /** The facts `run_simulation_cycle` keeps after the turns of the first
        `i` sensors of a cycle that started from `before`. */
    ghost predicate CycleInProgress(before: seq<SensorState>, ticks: seq<Tick>, i: nat,
                                    history0: seq<ParkingEvent>, items0: seq<ParkingEvent>,
                                    unfinished0: nat, eventsGenerated: nat)
      requires |ticks| == |before| && i <= |before|
      reads this, sensors, blockchain, blockchain.transactionQueue
    {
      var emitted := Emitted(before[..i], rates, ticks[..i]);
      && Valid()
      && Fleet() == CyclePrefix(before, rates, ticks, i)
      && eventHistory == history0 + emitted
      && blockchain.transactionQueue.items == items0 + Qualifying(emitted)
      && blockchain.transactionQueue.unfinishedTasks == unfinished0 + eventsGenerated
      && eventsGenerated == |Qualifying(emitted)|
    }

    /** One pass of the loop of `run_simulation_cycle`. */
    method CycleTurn(i: nat, ticks: seq<Tick>, ghost before: seq<SensorState>, ghost history0: seq<ParkingEvent>,
                     ghost items0: seq<ParkingEvent>, ghost unfinished0: nat, eventsGenerated: nat)
      returns (eventsGenerated': nat)
      requires |ticks| == |before| == |sensors| && i < |sensors|
      requires CycleInProgress(before, ticks, i, history0, items0, unfinished0, eventsGenerated)
      modifies sensors[i], this`eventHistory, blockchain.transactionQueue
      ensures CycleInProgress(before, ticks, i + 1, history0, items0, unfinished0, eventsGenerated')
    {
      ghost var done := Emitted(before[..i], rates, ticks[..i]);
      ghost var step := OptionToSeq(CycleStep(before[i], rates, ticks[i]).event);
      CyclePrefixStep(before, rates, ticks, i);
      var queued := StepSensor(i, ticks);
      eventsGenerated' := if queued then eventsGenerated + 1 else eventsGenerated;
      EmittedExtend(before, rates, ticks, i);
      QualifyingAppend(done, step);
      AppendAssoc(history0, done, step);
      AppendAssoc(items0, Qualifying(done), Qualifying(step));
    }

    /** `run_simulation_cycle`: every sensor in dictionary order takes one
        turn; the result is the number of events queued for the ledger. */
    method RunSimulationCycle(ticks: seq<Tick>) returns (eventsGenerated: nat)
      requires Valid() && |ticks| == |sensors|
      modifies this`eventHistory, sensors, blockchain.transactionQueue
      ensures Valid()
      ensures Fleet() == CycleFleet(old(Fleet()), rates, ticks)
      ensures var emitted := Emitted(old(Fleet()), rates, ticks);
        && eventHistory == old(eventHistory) + emitted
        && blockchain.transactionQueue.items == old(blockchain.transactionQueue.items) + Qualifying(emitted)
        && blockchain.transactionQueue.unfinishedTasks
             == old(blockchain.transactionQueue.unfinishedTasks) + eventsGenerated
        && eventsGenerated == |Qualifying(emitted)|
    {
      ghost var before := Fleet();
      ghost var history0 := eventHistory;
      ghost var items0 := blockchain.transactionQueue.items;
      ghost var unfinished0 := blockchain.transactionQueue.unfinishedTasks;
      eventsGenerated := 0;
      CycleBegins(before, ticks);
      for i := 0 to |sensors|
        invariant sensors == old(sensors)
        invariant CycleInProgress(before, ticks, i, history0, items0, unfinished0, eventsGenerated)
      {
        assert sensors[i] in old(sensors);
        eventsGenerated := CycleTurn(i, ticks, before, history0, items0, unfinished0, eventsGenerated);
      }
      CycleEnds(before, ticks, history0, items0, unfinished0, eventsGenerated);
    }

    lemma CycleBegins(before: seq<SensorState>, ticks: seq<Tick>)
      requires Valid() && before == Fleet() && |ticks| == |before|
      ensures CycleInProgress(before, ticks, 0, eventHistory, blockchain.transactionQueue.items,
                              blockchain.transactionQueue.unfinishedTasks, 0)
    {
      CyclePrefixEnds(before, rates, ticks);
    }

    lemma CycleEnds(before: seq<SensorState>, ticks: seq<Tick>, history0: seq<ParkingEvent>,
                    items0: seq<ParkingEvent>, unfinished0: nat, eventsGenerated: nat)
      requires |ticks| == |before| == |sensors|
      requires CycleInProgress(before, ticks, |sensors|, history0, items0, unfinished0, eventsGenerated)
      ensures Valid() && Fleet() == CycleFleet(before, rates, ticks)
      ensures var emitted := Emitted(before, rates, ticks);
        && eventHistory == history0 + emitted
        && blockchain.transactionQueue.items == items0 + Qualifying(emitted)
        && blockchain.transactionQueue.unfinishedTasks == unfinished0 + eventsGenerated
        && eventsGenerated == |Qualifying(emitted)|
    {
      CyclePrefixEnds(before, rates, ticks);
      assert before[..|sensors|] == before && ticks[..|sensors|] == ticks;
    }

    /** One iteration of `create_sensors`: build sensor `i` from its draws,
        store it and queue its initialization event. */
    method CreateSensor(i: nat, seed: Seed)
      requires Valid()
      modifies this`sensors, blockchain.transactionQueue
      ensures Valid()
      ensures Keys(sensors) == InsertKey(old(Keys(sensors)), SensorId(i + 1))
      ensures forall j | 0 <= j < |sensors| && sensors[j].sensorId == SensorId(i + 1) ::
        fresh(sensors[j]) && sensors[j].State() == InitialState(i, seed)
      ensures forall j | 0 <= j < |sensors| && sensors[j].sensorId != SensorId(i + 1) ::
        j < |old(sensors)| && sensors[j] == old(sensors)[j]
      ensures blockchain.transactionQueue.items == old(blockchain.transactionQueue.items) + [InitEvent(i, seed)]
      ensures blockchain.transactionQueue.unfinishedTasks == old(blockchain.transactionQueue.unfinishedTasks) + 1
    {
      var sensorId := SensorId(i + 1);
      var slotId := SlotId(i + 1);
      var location := LocationOf(i);
      var sensor := new IoTSensor(sensorId, slotId, location, seed.batteryLevel, seed.readingTime,
                                  Active, seed.occupied, seed.confidence);
      AddSensor(sensor);
      blockchain.transactionQueue.Put(ParkingEvent(sensorId, slotId, location, sensor.occupied,
                                                   seed.eventTime, sensor.confidence, Initialization));
    }

    /** `self.sensors[sensor.sensor_id] = sensor`: an existing key keeps its
        position and gets the new value, a new key goes last. */
    method AddSensor(sensor: IoTSensor)
      requires Indexed()
      modifies this`sensors
      ensures Indexed()
      ensures Keys(sensors) == InsertKey(old(Keys(sensors)), sensor.sensorId)
      ensures forall j | 0 <= j < |sensors| && sensors[j].sensorId == sensor.sensorId :: sensors[j] == sensor
      ensures forall j | 0 <= j < |sensors| && sensors[j].sensorId != sensor.sensorId ::
        j < |old(sensors)| && sensors[j] == old(sensors)[j]
    {
      var p := 0;
      while p < |sensors| && sensors[p].sensorId != sensor.sensorId
        invariant p <= |sensors|
        invariant forall j | 0 <= j < p :: sensors[j].sensorId != sensor.sensorId
      {
        p := p + 1;
      }
      if p == |sensors| {
        assert Keys(sensors + [sensor]) == Keys(sensors) + [sensor.sensorId];
        sensors := sensors + [sensor];
      } else {
        ghost var keys := Keys(sensors);
        assert keys[p] == sensor.sensorId;
        assert Keys(sensors[p := sensor]) == keys;
        forall j | 0 <= j < |sensors| && j != p ensures sensors[j].sensorId != sensor.sensorId {
          assert keys[j] != keys[p];
        }
        sensors := sensors[p := sensor];
      }
    }

    /** One pass of the loop of `get_location_breakdown`. */
    method TallySensor(sensor: IoTSensor, locations: seq<string>, stats: map<string, LocationStats>)
      returns (locations': seq<string>, stats': map<string, LocationStats>)
      ensures Breakdown(locations', stats') == Tally(Breakdown(locations, stats), sensor.State())
    {
      locations', stats' := locations, stats;
      var location := sensor.location;
      if location !in stats' {
        stats' := stats'[location := LocationStats(0, 0, 0)];
        locations' := locations' + [location];
      }
      var st := stats'[location];
      st := st.(totalSlots := st.totalSlots + 1);
      if sensor.occupied {
        st := st.(occupiedSlots := st.occupiedSlots + 1);
      }
      if sensor.status == Active {
        st := st.(activeSensors := st.activeSensors + 1);
      }
      stats' := stats'[location := st];
      assert stats' == stats[location := st];
    }

    /** `get_location_breakdown`: one pass over the sensors in dictionary
        order; a location met for the first time gets a zero entry at the
        end of the table, then its counters go up. */
    method GetLocationBreakdown() returns (b: Breakdown)
      ensures b == BreakdownOf(Fleet())
    {
      ghost var fleet := Fleet();
      var locations: seq<string> := [];
      var stats: map<string, LocationStats> := map[];
      for i := 0 to |sensors|
        invariant Breakdown(locations, stats) == BreakdownOf(fleet[..i])
      {
        locations, stats := TallySensor(sensors[i], locations, stats);
        assert fleet[..i + 1][..i] == fleet[..i] && fleet[i] == sensors[i].State();
      }
      assert fleet[..|sensors|] == fleet;
      b := Breakdown(locations, stats);
    }

    /** `generate_simulation_report`: the status, occupancy and event counts
        and the location table. With no sensors the averages divide by zero
        and the call raises instead. */
    method GenerateSimulationReport(now: Timestamp) returns (r: Result<SimulationReport, ReportError>)
      ensures r == ReportOf(Fleet(), eventHistory, now)
    {
      if |sensors| == 0 {
        assert Fleet() == [];
        return Failure(NoSensors);
      }
      var breakdown := GetLocationBreakdown();
      var fleet := Fleet();
      ReportFields(fleet, eventHistory, now);
      r := Success(SimulationReport(
        |sensors|,
        CountStatus(fleet, Active),
        CountStatus(fleet, LowBattery),
        CountStatus(fleet, Offline),
        CountOccupied(fleet, true),
        CountOccupied(fleet, false),
        |eventHistory|,
        CountEvents(eventHistory, Arrival),
        CountEvents(eventHistory, Departure),
        breakdown,
        now));
      assert r == ReportOf(fleet, eventHistory, now);
      assert fleet == Fleet();
    }

    /** The driver has run the first `c` cycles of `ticks`, starting from the
        fleet `before`, the history `history0` and the queue contents
        `items0` with `unfinished0` open tasks. */
    ghost predicate RunInProgress(before: seq<SensorState>, ticks: seq<seq<Tick>>, c: nat,
                                  history0: seq<ParkingEvent>, items0: seq<ParkingEvent>, unfinished0: nat)
      reads this, sensors, blockchain, blockchain.transactionQueue
    {
      && c <= |ticks|
      && TicksFit(before, ticks[..c])
      && Valid()
      && Fleet() == RunFleet(before, rates, ticks[..c])
      && var events := RunEvents(before, rates, ticks[..c]);
      && eventHistory == history0 + events
      && blockchain.transactionQueue.items == items0 + Qualifying(events)
      && blockchain.transactionQueue.unfinishedTasks == unfinished0 + |Qualifying(events)|
    }

    /** One pass of the driver loop of `start_simulation`: one cycle. */
    method RunTurn(c: nat, ticks: seq<seq<Tick>>, ghost before: seq<SensorState>, ghost history0: seq<ParkingEvent>,
                   ghost items0: seq<ParkingEvent>, ghost unfinished0: nat)
      returns (events: nat)
      requires TicksFit(before, ticks) && c < |ticks|
      requires RunInProgress(before, ticks, c, history0, items0, unfinished0)
      modifies this`eventHistory, sensors, blockchain.transactionQueue
      ensures RunInProgress(before, ticks, c + 1, history0, items0, unfinished0)
    {
      ghost var done := RunEvents(before, rates, ticks[..c]);
      ghost var step := Emitted(Fleet(), rates, ticks[c]);
      RunSnoc(before, rates, ticks, c);
      events := RunSimulationCycle(ticks[c]);
      QualifyingAppend(done, step);
      AppendAssoc(history0, done, step);
      AppendAssoc(items0, Qualifying(done), Qualifying(step));
    }

    /** The first part of `start_simulation`: raise both run flags, then the
        driver loop, one cycle per entry of `ticks` (the cycles the wall
        clock allows). */
    method RunCycles(ticks: seq<seq<Tick>>)
      requires Valid() && TicksFit(Fleet(), ticks)
      modifies this`eventHistory, this`simulationActive, sensors, blockchain`isRunning, blockchain.transactionQueue
      ensures Valid() && simulationActive && blockchain.isRunning
      ensures Fleet() == RunFleet(old(Fleet()), rates, ticks)
      ensures var events := RunEvents(old(Fleet()), rates, ticks);
        && eventHistory == old(eventHistory) + events
        && blockchain.transactionQueue.items == old(blockchain.transactionQueue.items) + Qualifying(events)
        && blockchain.transactionQueue.unfinishedTasks
             == old(blockchain.transactionQueue.unfinishedTasks) + |Qualifying(events)|
    {
      ghost var before := Fleet();
      ghost var history0 := eventHistory;
      ghost var items0 := blockchain.transactionQueue.items;
      ghost var unfinished0 := blockchain.transactionQueue.unfinishedTasks;
      simulationActive := true;
      blockchain.isRunning := true;
      assert Fleet() == before;
      assert ticks[..0] == [];
      assert history0 + [] == history0 && items0 + [] == items0;
      for c := 0 to |ticks|
        invariant sensors == old(sensors) && simulationActive && blockchain.isRunning
        invariant RunInProgress(before, ticks, c, history0, items0, unfinished0)
      {
        var _ := RunTurn(c, ticks, before, history0, items0, unfinished0);
      }
      assert ticks[..|ticks|] == ticks;
    }

    /** `start_simulation` up to its report: run the cycles, stop the
        consumer and lower both run flags. The consumer thread
        is serialised after the cycles and goes round `consumerRounds` times
        before the flag it polls is cleared; `queued` is the queue it finds. */
    method Simulate(ticks: seq<seq<Tick>>, ledger: LedgerOracle, consumerRounds: nat)
      returns (ghost queued: seq<ParkingEvent>)
      requires Valid() && TicksFit(Fleet(), ticks)
      modifies this`eventHistory, this`simulationActive, sensors, blockchain, blockchain.transactionQueue
      ensures Valid() && sensors == old(sensors)
      ensures !simulationActive && !blockchain.isRunning
      ensures Fleet() == RunFleet(old(Fleet()), rates, ticks)
      ensures eventHistory == old(eventHistory) + RunEvents(old(Fleet()), rates, ticks)
      ensures queued == old(blockchain.transactionQueue.items) + Qualifying(RunEvents(old(Fleet()), rates, ticks))
      ensures var k := Min(consumerRounds, |queued|);
        && blockchain.transactionQueue.items == queued[k..]
        && blockchain.transactionQueue.unfinishedTasks
             == old(blockchain.transactionQueue.unfinishedTasks) + |queued| - |old(blockchain.transactionQueue.items)| - k
        && blockchain.attempts == old(blockchain.attempts)
             + Deliveries(queued[..k], blockchain.minifabCmd, blockchain.chaincodeName, ledger,
                          |old(blockchain.attempts)|)
    {
      RunCycles(ticks);
      queued := blockchain.transactionQueue.items;
      ghost var fleet := Fleet();
      blockchain.ProcessTransactionQueue(ledger, consumerRounds);
      simulationActive := false;
      blockchain.isRunning := false;
      assert Fleet() == fleet;
    }

    /** `start_simulation`: the run, then `generate_simulation_report`. */
    method StartSimulation(ticks: seq<seq<Tick>>, ledger: LedgerOracle, consumerRounds: nat, now: Timestamp)
      returns (report: Result<SimulationReport, ReportError>, ghost queued: seq<ParkingEvent>)
      requires Valid() && TicksFit(Fleet(), ticks)
      modifies this`eventHistory, this`simulationActive, sensors, blockchain, blockchain.transactionQueue
      ensures Valid() && sensors == old(sensors)
      ensures !simulationActive && !blockchain.isRunning
      ensures Fleet() == RunFleet(old(Fleet()), rates, ticks)
      ensures eventHistory == old(eventHistory) + RunEvents(old(Fleet()), rates, ticks)
      ensures queued == old(blockchain.transactionQueue.items) + Qualifying(RunEvents(old(Fleet()), rates, ticks))
      ensures var k := Min(consumerRounds, |queued|);
        && blockchain.transactionQueue.items == queued[k..]
        && blockchain.transactionQueue.unfinishedTasks
             == old(blockchain.transactionQueue.unfinishedTasks) + |queued| - |old(blockchain.transactionQueue.items)| - k
        && blockchain.attempts == old(blockchain.attempts)
             + Deliveries(queued[..k], blockchain.minifabCmd, blockchain.chaincodeName, ledger,
                          |old(blockchain.attempts)|)
      ensures report == ReportOf(Fleet(), eventHistory, now)
    {
      queued := Simulate(ticks, ledger, consumerRounds);
      report := GenerateSimulationReport(now);
    }
  }
}
