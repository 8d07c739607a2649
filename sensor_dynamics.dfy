/** How one sensor evolves in one simulation cycle, and how a whole fleet
    evolves over one cycle and over many, as pure functions of the sensors'
    states and of the random draws. The simulator's methods are proved to
    follow these functions; the properties of the simulation are proved
    about them here. */
module SensorDynamics {
  import opened Wrappers
  import opened Records

  /** The simulator's per-cycle probabilities and battery drain. */
  datatype Rates = Rates(carArrival: real, carDeparture: real, sensorError: real, batteryDrain: real)

  /** The values the simulator's constructor assigns. */
  const DefaultRates: Rates := Rates(0.1, 0.05, 0.02, 0.001)

  const LowBatteryThreshold: real := 20.0
  const OfflineThreshold: real := 5.0
  const ErrorPenalty: real := 0.2
  const ConfidenceFloor: real := 0.5
  const EventConfidenceFloor: real := 0.7
  const MaxJitter: real := 0.1
  /** Events whose confidence exceeds this are forwarded to the ledger queue. */
  const SubmitThreshold: real := 0.75

  function Max(a: real, b: real): real {
    if a >= b then a else b
  }

  /** The draws one sensor consumes in one cycle: the `random.random()` of the
      error check, the `random.random()` of the occupancy check, the
      `random.uniform(0, 0.1)` confidence jitter (used only on a transition)
      and the clock reading of the movement step. */
  datatype Tick = Tick(errorRoll: real, moveRoll: real, jitter: real, now: Timestamp)

  /** The ranges Python's generators draw from. */
  predicate ValidTick(t: Tick) {
    0.0 <= t.errorRoll < 1.0 && 0.0 <= t.moveRoll < 1.0 && 0.0 <= t.jitter <= MaxJitter
  }

  /** Status derived from the battery level in the order the code checks the
      thresholds: the low-battery check comes first and already catches every
      level below 5, so the offline branch can never be taken. */
  function StatusFor(batteryLevel: real): (st: Status)
    ensures st != Offline
    ensures st == LowBattery <==> batteryLevel < LowBatteryThreshold
  {
    if batteryLevel < LowBatteryThreshold then LowBattery
    else if batteryLevel < OfflineThreshold then Offline
    else Active
  }

  /** `simulate_sensor_issues`: drain the battery (no clamp), re-derive the
      status, and on an error draw knock the confidence down to
      `max(0.5, confidence - 0.2)`. */
  function SensorIssues(s: SensorState, rates: Rates, errorRoll: real): (r: SensorState)
    ensures r.batteryLevel == s.batteryLevel - rates.batteryDrain
    ensures r.status != Offline
    ensures r.status == Active <==> r.batteryLevel >= LowBatteryThreshold
    ensures errorRoll >= rates.sensorError ==> r.confidence == s.confidence
    ensures ConfidenceFloor <= s.confidence ==> ConfidenceFloor <= r.confidence <= s.confidence
    ensures (errorRoll < rates.sensorError && s.confidence >= ConfidenceFloor + ErrorPenalty) ==>
      r.confidence == s.confidence - ErrorPenalty
    ensures (errorRoll < rates.sensorError && s.confidence < ConfidenceFloor + ErrorPenalty) ==>
      r.confidence == ConfidenceFloor
    ensures r.sensorId == s.sensorId && r.slotId == s.slotId && r.location == s.location
    ensures r.occupied == s.occupied && r.lastReading == s.lastReading
  {
    var batteryLevel := s.batteryLevel - rates.batteryDrain;
    var confidence :=
      if errorRoll < rates.sensorError then Max(ConfidenceFloor, s.confidence - ErrorPenalty)
      else s.confidence;
    s.(batteryLevel := batteryLevel, status := StatusFor(batteryLevel), confidence := confidence)
  }

  /** A sensor after a movement check, with the event the check emitted. */
  datatype Movement = Movement(sensor: SensorState, event: Option<ParkingEvent>)

  /** The probability that the slot changes state this cycle. */
  function TransitionRate(s: SensorState, rates: Rates): real {
    if s.occupied then rates.carDeparture else rates.carArrival
  }

  /** The slot flips to `occupied`: the reading time is updated and an event
      is emitted whose confidence is the sensor's less the jitter, floored at
      0.7; the sensor's own confidence is left alone. */
  function Transition(s: SensorState, t: Tick, occupied: bool, eventType: EventType): Movement {
    Movement(
      s.(occupied := occupied, lastReading := t.now),
      Some(ParkingEvent(s.sensorId, s.slotId, s.location, occupied, t.now,
                        Max(EventConfidenceFloor, s.confidence - t.jitter), eventType)))
  }

  /** `simulate_car_movement`: a sensor that is not active is frozen; an
      occupied slot empties with probability `carDeparture`, a free one fills
      with probability `carArrival`. */
  function CarMovement(s: SensorState, rates: Rates, t: Tick): (m: Movement)
    ensures m.event.Some? <==> s.status == Active && t.moveRoll < TransitionRate(s, rates)
    ensures m.event.None? ==> m.sensor == s
    ensures m.event.Some? ==>
      var e := m.event.value;
      && m.sensor == s.(occupied := !s.occupied, lastReading := t.now)
      && e.occupied == m.sensor.occupied
      && e.eventType == (if s.occupied then Departure else Arrival)
      && e.sensorId == s.sensorId && e.slotId == s.slotId && e.location == s.location
      && e.timestamp == t.now
      && EventConfidenceFloor <= e.confidence
      && (s.confidence - t.jitter >= EventConfidenceFloor ==> e.confidence == s.confidence - t.jitter)
      && (s.confidence - t.jitter < EventConfidenceFloor ==> e.confidence == EventConfidenceFloor)
      && (e.confidence > SubmitThreshold <==> s.confidence - t.jitter > SubmitThreshold)
  {
    if s.status != Active then
      Movement(s, None)
    else if s.occupied then
      if t.moveRoll < rates.carDeparture then Transition(s, t, false, Departure)
      else Movement(s, None)
    else
      if t.moveRoll < rates.carArrival then Transition(s, t, true, Arrival)
      else Movement(s, None)
  }

  /** One sensor's turn in `run_simulation_cycle`: health update, then the
      movement check on the updated sensor. */
  function CycleStep(s: SensorState, rates: Rates, t: Tick): (m: Movement)
    ensures m.sensor.batteryLevel == s.batteryLevel - rates.batteryDrain
    ensures m.sensor.status == StatusFor(s.batteryLevel - rates.batteryDrain)
    ensures m.sensor.sensorId == s.sensorId && m.sensor.slotId == s.slotId
    ensures m.sensor.location == s.location
    ensures m.sensor.batteryLevel < LowBatteryThreshold ==>
      m.event.None? && m.sensor.occupied == s.occupied && m.sensor.lastReading == s.lastReading
    ensures m.event.Some? ==>
      && m.event.value.occupied == m.sensor.occupied == !s.occupied
      && m.event.value.eventType == (if s.occupied then Departure else Arrival)
      && m.event.value.sensorId == s.sensorId
      && m.event.value.confidence >= EventConfidenceFloor
    ensures m.event.None? ==> m.sensor.occupied == s.occupied
  {
    CarMovement(SensorIssues(s, rates, t.errorRoll), rates, t)
  }

  /** `generate_sensor_heartbeat`: a snapshot of the sensor as an event,
      stamped with the clock reading `now`. */
  function HeartbeatEvent(s: SensorState, now: Timestamp): (e: ParkingEvent)
    ensures e.eventType == EventType.Heartbeat && e.timestamp == now
  {
    ParkingEvent(s.sensorId, s.slotId, s.location, s.occupied, now, s.confidence, EventType.Heartbeat)
  }

  /** A heartbeat taken after a cycle reports the occupancy that the cycle's
      event (if any) announced, and otherwise the occupancy before the cycle;
      it always carries the sensor's own, unjittered confidence. */
  lemma HeartbeatAfterCycle(s: SensorState, rates: Rates, t: Tick, now: Timestamp)
    ensures var m := CycleStep(s, rates, t);
      var hb := HeartbeatEvent(m.sensor, now);
      && hb.sensorId == s.sensorId && hb.slotId == s.slotId && hb.location == s.location
      && (m.event.Some? ==> hb.occupied == m.event.value.occupied)
      && (m.event.None? ==> hb.occupied == s.occupied)
      && hb.confidence == SensorIssues(s, rates, t.errorRoll).confidence
  {
  }

  /** The sensors' identifiers, in fleet order. */
  function SensorIds(fleet: seq<SensorState>): (ids: seq<string>)
    ensures |ids| == |fleet|
  {
    seq(|fleet|, j requires 0 <= j < |fleet| => fleet[j].sensorId)
  }

  /** The sensor identifiers the events are about, in event order. */
  function EventIds(events: seq<ParkingEvent>): (ids: seq<string>)
    ensures |ids| == |events|
  {
    seq(|events|, i requires 0 <= i < |events| => events[i].sensorId)
  }

  /** The fleet after one cycle. */
  function CycleFleet(fleet: seq<SensorState>, rates: Rates, ticks: seq<Tick>): (r: seq<SensorState>)
    requires |ticks| == |fleet|
    ensures |r| == |fleet|
  {
    seq(|fleet|, j requires 0 <= j < |fleet| => CycleStep(fleet[j], rates, ticks[j]).sensor)
  }

  /** The fleet part-way through a cycle: the first `i` sensors have taken
      their turn, the others have not. */
  function CyclePrefix(fleet: seq<SensorState>, rates: Rates, ticks: seq<Tick>, i: nat): (r: seq<SensorState>)
    requires |ticks| == |fleet| && i <= |fleet|
    ensures |r| == |fleet|
  {
    CycleFleet(fleet[..i], rates, ticks[..i]) + fleet[i..]
  }

  /** Each turn replaces exactly one sensor; after the last turn the cycle
      is complete. */
  lemma CyclePrefixStep(fleet: seq<SensorState>, rates: Rates, ticks: seq<Tick>, i: nat)
    requires |ticks| == |fleet| && i < |fleet|
    ensures CyclePrefix(fleet, rates, ticks, i)[i] == fleet[i]
    ensures CyclePrefix(fleet, rates, ticks, i + 1)
              == CyclePrefix(fleet, rates, ticks, i)[i := CycleStep(fleet[i], rates, ticks[i]).sensor]
  {
  }

  lemma CyclePrefixEnds(fleet: seq<SensorState>, rates: Rates, ticks: seq<Tick>)
    requires |ticks| == |fleet|
    ensures CyclePrefix(fleet, rates, ticks, 0) == fleet
    ensures CyclePrefix(fleet, rates, ticks, |fleet|) == CycleFleet(fleet, rates, ticks)
  {
    assert fleet[..|fleet|] == fleet && ticks[..|ticks|] == ticks;
  }

  /** The events one cycle emits, in sensor order. */
  function Emitted(fleet: seq<SensorState>, rates: Rates, ticks: seq<Tick>): (r: seq<ParkingEvent>)
    requires |ticks| == |fleet|
    ensures |r| <= |fleet|
  {
    if fleet == [] then []
    else
      var n := |fleet| - 1;
      Emitted(fleet[..n], rates, ticks[..n]) + OptionToSeq(CycleStep(fleet[n], rates, ticks[n]).event)
  }

  /** Every emitted event is an arrival or a departure of one of the
      fleet's sensors, with confidence at least 0.7. */
  lemma {:induction false} EmittedEvents(fleet: seq<SensorState>, rates: Rates, ticks: seq<Tick>)
    requires |ticks| == |fleet|
    ensures forall e | e in Emitted(fleet, rates, ticks) ::
      && (e.eventType == Arrival || e.eventType == Departure)
      && e.confidence >= EventConfidenceFloor
      && e.sensorId in SensorIds(fleet)
  {
    if fleet != [] {
      var n := |fleet| - 1;
      EmittedEvents(fleet[..n], rates, ticks[..n]);
      assert SensorIds(fleet) == SensorIds(fleet[..n]) + [fleet[n].sensorId];
    }
  }

  /** The events that pass the confidence filter, in order. */
  function Qualifying(events: seq<ParkingEvent>): (r: seq<ParkingEvent>)
    ensures |r| <= |events|
  {
    if events == [] then []
    else
      var n := |events| - 1;
      Qualifying(events[..n]) + (if events[n].confidence > SubmitThreshold then [events[n]] else [])
  }

  /** The filter keeps exactly the events above the threshold. */
  lemma {:induction false} QualifyingMembers(events: seq<ParkingEvent>)
    ensures forall e :: e in Qualifying(events) <==> e in events && e.confidence > SubmitThreshold
  {
    if events != [] {
      var n := |events| - 1;
      QualifyingMembers(events[..n]);
      assert events == events[..n] + [events[n]];
    }
  }

  /** The filter distributes over concatenation. */
  lemma {:induction false} QualifyingAppend(a: seq<ParkingEvent>, b: seq<ParkingEvent>)
    ensures Qualifying(a + b) == Qualifying(a) + Qualifying(b)
    decreases |b|
  {
    if b == [] {
      assert a + b == a;
    } else {
      var n := |b| - 1;
      assert (a + b)[..|a + b| - 1] == a + b[..n];
      QualifyingAppend(a, b[..n]);
    }
  }

  /** A sensor emits at most one event per cycle: when the identifiers are
      distinct, so are the identifiers of the emitted events. */
  lemma {:induction false} EmittedOncePerSensor(fleet: seq<SensorState>, rates: Rates, ticks: seq<Tick>)
    requires |ticks| == |fleet| && Distinct(SensorIds(fleet))
    ensures Distinct(EventIds(Emitted(fleet, rates, ticks)))
  {
    if fleet != [] {
      var n := |fleet| - 1;
      var prior := Emitted(fleet[..n], rates, ticks[..n]);
      var last := OptionToSeq(CycleStep(fleet[n], rates, ticks[n]).event);
      var es := prior + last;
      assert es == Emitted(fleet, rates, ticks);
      var ids := SensorIds(fleet);
      var priorIds := SensorIds(fleet[..n]);
      assert Distinct(priorIds) by {
        forall i, j | 0 <= i < j < n ensures priorIds[i] != priorIds[j] {
          assert priorIds[i] == ids[i] && priorIds[j] == ids[j];
        }
      }
      EmittedOncePerSensor(fleet[..n], rates, ticks[..n]);
      EmittedEvents(fleet[..n], rates, ticks[..n]);
      forall e | e in prior ensures e.sensorId != fleet[n].sensorId {
        var k :| 0 <= k < n && priorIds[k] == e.sensorId;
        assert ids[k] == e.sensorId && ids[n] == fleet[n].sensorId;
      }
      var eventIds := EventIds(es);
      var priorEventIds := EventIds(prior);
      forall i, j | 0 <= i < j < |es| ensures eventIds[i] != eventIds[j] {
        if j >= |prior| {
          assert es[j] == last[0] && es[j].sensorId == fleet[n].sensorId;
          assert es[i] == prior[i] && prior[i] in prior;
        } else {
          assert es[i] == prior[i] && es[j] == prior[j];
          assert priorEventIds[i] != priorEventIds[j];
        }
      }
    }
  }

  /** `ticks[c]` holds one draw per sensor for cycle `c`. */
  predicate TicksFit(fleet: seq<SensorState>, ticks: seq<seq<Tick>>) {
    forall c | 0 <= c < |ticks| :: |ticks[c]| == |fleet|
  }

  /** Running one more cycle: the fleet and the events of the first `c + 1`
      cycles follow from those of the first `c`. */
  lemma RunSnoc(fleet: seq<SensorState>, rates: Rates, ticks: seq<seq<Tick>>, c: nat)
    requires TicksFit(fleet, ticks) && c < |ticks|
    ensures TicksFit(fleet, ticks[..c]) && TicksFit(fleet, ticks[..c + 1])
    ensures |ticks[c]| == |RunFleet(fleet, rates, ticks[..c])|
    ensures RunFleet(fleet, rates, ticks[..c + 1]) == CycleFleet(RunFleet(fleet, rates, ticks[..c]), rates, ticks[c])
    ensures RunEvents(fleet, rates, ticks[..c + 1])
         == RunEvents(fleet, rates, ticks[..c]) + Emitted(RunFleet(fleet, rates, ticks[..c]), rates, ticks[c])
  {
    assert ticks[..c + 1][..c] == ticks[..c];
    assert ticks[..c + 1][c] == ticks[c];
  }

  /** The fleet after `|ticks|` cycles. */
  function RunFleet(fleet: seq<SensorState>, rates: Rates, ticks: seq<seq<Tick>>): (r: seq<SensorState>)
    requires TicksFit(fleet, ticks)
    ensures |r| == |fleet|
  {
    if ticks == [] then fleet
    else
      var n := |ticks| - 1;
      CycleFleet(RunFleet(fleet, rates, ticks[..n]), rates, ticks[n])
  }

  /** Every event emitted over `|ticks|` cycles, in emission order. */
  function RunEvents(fleet: seq<SensorState>, rates: Rates, ticks: seq<seq<Tick>>): seq<ParkingEvent>
    requires TicksFit(fleet, ticks)
  {
    if ticks == [] then []
    else
      var n := |ticks| - 1;
      RunEvents(fleet, rates, ticks[..n]) + Emitted(RunFleet(fleet, rates, ticks[..n]), rates, ticks[n])
  }

  /** The battery is drained by exactly `batteryDrain` per cycle and never
      clamped, so a long enough run drives it below zero. */
  lemma {:induction false} RunDrainsBattery(fleet: seq<SensorState>, rates: Rates, ticks: seq<seq<Tick>>, j: nat)
    requires TicksFit(fleet, ticks) && j < |fleet|
    ensures RunFleet(fleet, rates, ticks)[j].batteryLevel
              == fleet[j].batteryLevel - (|ticks| as real) * rates.batteryDrain
  {
    if ticks != [] {
      var n := |ticks| - 1;
      RunDrainsBattery(fleet, rates, ticks[..n], j);
    }
  }

  /** After at least one cycle every status is the function of the battery
      level the code computes, so no sensor is ever offline. */
  lemma {:induction false} RunStatusFollowsBattery(fleet: seq<SensorState>, rates: Rates, ticks: seq<seq<Tick>>, j: nat)
    requires TicksFit(fleet, ticks) && j < |fleet| && ticks != []
    ensures var s := RunFleet(fleet, rates, ticks)[j];
      s.status == StatusFor(s.batteryLevel) && s.status != Offline
      && (s.status == LowBattery <==> fleet[j].batteryLevel - (|ticks| as real) * rates.batteryDrain < LowBatteryThreshold)
  {
    RunDrainsBattery(fleet, rates, ticks, j);
  }

  /** Identity, slot and location of every sensor survive any number of cycles. */
  lemma {:induction false} RunKeepsIdentity(fleet: seq<SensorState>, rates: Rates, ticks: seq<seq<Tick>>)
    requires TicksFit(fleet, ticks)
    ensures var r := RunFleet(fleet, rates, ticks);
      forall j | 0 <= j < |fleet| ::
        r[j].sensorId == fleet[j].sensorId && r[j].slotId == fleet[j].slotId && r[j].location == fleet[j].location
  {
    if ticks != [] {
      RunKeepsIdentity(fleet, rates, ticks[..|ticks| - 1]);
    }
  }

  predicate ConfidenceInRange(fleet: seq<SensorState>) {
    forall j | 0 <= j < |fleet| :: ConfidenceFloor <= fleet[j].confidence <= 1.0
  }

  /** Sensor confidence starts in [0.5, 1] and stays there: the error penalty
      is floored at 0.5 and the movement jitter only affects the event. */
  lemma {:induction false} RunKeepsConfidenceInRange(fleet: seq<SensorState>, rates: Rates, ticks: seq<seq<Tick>>)
    requires TicksFit(fleet, ticks) && ConfidenceInRange(fleet)
    ensures ConfidenceInRange(RunFleet(fleet, rates, ticks))
  {
    if ticks != [] {
      RunKeepsConfidenceInRange(fleet, rates, ticks[..|ticks| - 1]);
    }
  }

  /** The identifiers of the free slots' sensors, in fleet order. */
  function FreeIds(fleet: seq<SensorState>): (ids: seq<string>)
    ensures |ids| <= |fleet|
  {
    if fleet == [] then []
    else
      var n := |fleet| - 1;
      FreeIds(fleet[..n]) + (if fleet[n].occupied then [] else [fleet[n].sensorId])
  }

  lemma EventIdsAppend(a: seq<ParkingEvent>, b: seq<ParkingEvent>)
    ensures EventIds(a + b) == EventIds(a) + EventIds(b)
  {
  }

  /** The sensors stay active throughout `cycles` cycles. */
  predicate StaysActive(fleet: seq<SensorState>, rates: Rates, cycles: nat) {
    forall j | 0 <= j < |fleet| ::
      fleet[j].batteryLevel - (cycles as real) * rates.batteryDrain >= LowBatteryThreshold
  }

  predicate ValidTicks(ticks: seq<seq<Tick>>) {
    forall c, j | 0 <= c < |ticks| && 0 <= j < |ticks[c]| :: ValidTick(ticks[c][j])
  }

  /** With certain arrivals and no departures, one cycle fills every slot and
      emits exactly one arrival per slot that was free: the events are
      arrivals, about the free slots' sensors, in fleet order. */
  lemma {:induction false} CertainArrivalCycle(fleet: seq<SensorState>, rates: Rates, ticks: seq<Tick>)
    requires |ticks| == |fleet| && rates.carArrival == 1.0 && rates.carDeparture == 0.0
    requires StaysActive(fleet, rates, 1) && forall j | 0 <= j < |ticks| :: ValidTick(ticks[j])
    ensures forall j | 0 <= j < |fleet| :: CycleFleet(fleet, rates, ticks)[j].occupied
    ensures var es := Emitted(fleet, rates, ticks);
      EventIds(es) == FreeIds(fleet) && forall e | e in es :: e.eventType == Arrival
  {
    if fleet != [] {
      var n := |fleet| - 1;
      var prior := Emitted(fleet[..n], rates, ticks[..n]);
      var m := CycleStep(fleet[n], rates, ticks[n]);
      var last := OptionToSeq(m.event);
      assert StaysActive(fleet[..n], rates, 1);
      CertainArrivalCycle(fleet[..n], rates, ticks[..n]);
      assert m.event.Some? <==> !fleet[n].occupied;
      assert EventIds(last) == (if fleet[n].occupied then [] else [fleet[n].sensorId]);
      EventIdsAppend(prior, last);
    }
  }

  /** With no departures, a fully occupied fleet emits nothing. */
  lemma {:induction false} FullFleetIsQuiet(fleet: seq<SensorState>, rates: Rates, ticks: seq<Tick>)
    requires |ticks| == |fleet| && rates.carDeparture == 0.0
    requires forall j | 0 <= j < |fleet| :: fleet[j].occupied
    requires forall j | 0 <= j < |ticks| :: ValidTick(ticks[j])
    ensures Emitted(fleet, rates, ticks) == []
    ensures forall j | 0 <= j < |fleet| :: CycleFleet(fleet, rates, ticks)[j].occupied
  {
    if fleet != [] {
      var n := |fleet| - 1;
      FullFleetIsQuiet(fleet[..n], rates, ticks[..n]);
    }
  }

  /** The end-to-end scenario: arrival probability 1, departure probability 0,
      batteries high enough to stay active for the whole run. However many
      cycles are run (at least one), every slot ends up occupied and the run
      emits exactly one event per initially free slot, each an arrival, in
      fleet order. */
  lemma {:induction false} CertainArrivalRun(fleet: seq<SensorState>, rates: Rates, ticks: seq<seq<Tick>>)
    requires TicksFit(fleet, ticks) && ticks != []
    requires rates.carArrival == 1.0 && rates.carDeparture == 0.0 && rates.batteryDrain >= 0.0
    requires StaysActive(fleet, rates, |ticks|) && ValidTicks(ticks)
    ensures forall j | 0 <= j < |fleet| :: RunFleet(fleet, rates, ticks)[j].occupied
    ensures var es := RunEvents(fleet, rates, ticks);
      EventIds(es) == FreeIds(fleet) && forall e | e in es :: e.eventType == Arrival
  {
    var n := |ticks| - 1;
    var prefix := ticks[..n];
    assert forall j | 0 <= j < |ticks[n]| :: ValidTick(ticks[n][j]);
    if n == 0 {
      assert StaysActive(fleet, rates, 1);
      CertainArrivalCycle(fleet, rates, ticks[n]);
    } else {
      assert StaysActive(fleet, rates, |prefix|) by {
        assert (|prefix| as real) * rates.batteryDrain <= (|ticks| as real) * rates.batteryDrain;
      }
      CertainArrivalRun(fleet, rates, prefix);
      FullFleetIsQuiet(RunFleet(fleet, rates, prefix), rates, ticks[n]);
    }
  }
}
