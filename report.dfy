/** The end-of-run report: integer counts over the sensors and the event
    history, and the per-location breakdown, which the code builds as an
    insertion-ordered dictionary keyed by location. */
module Report {
  import opened Wrappers
  import opened Records

  function CountStatus(fleet: seq<SensorState>, st: Status): (k: nat)
    ensures k <= |fleet|
  {
    if fleet == [] then 0
    else CountStatus(fleet[..|fleet| - 1], st) + (if fleet[|fleet| - 1].status == st then 1 else 0)
  }

  function CountOccupied(fleet: seq<SensorState>, occupied: bool): (k: nat)
    ensures k <= |fleet|
  {
    if fleet == [] then 0
    else CountOccupied(fleet[..|fleet| - 1], occupied) + (if fleet[|fleet| - 1].occupied == occupied then 1 else 0)
  }

  function CountEvents(history: seq<ParkingEvent>, t: EventType): (k: nat)
    ensures k <= |history|
  {
    if history == [] then 0
    else CountEvents(history[..|history| - 1], t) + (if history[|history| - 1].eventType == t then 1 else 0)
  }

  /** Every sensor has exactly one of the three statuses. */
  lemma {:induction false} StatusCountsPartition(fleet: seq<SensorState>)
    ensures CountStatus(fleet, Active) + CountStatus(fleet, LowBattery) + CountStatus(fleet, Offline) == |fleet|
  {
    if fleet != [] {
      StatusCountsPartition(fleet[..|fleet| - 1]);
    }
  }

  /** Every slot is either occupied or free. */
  lemma {:induction false} OccupancyCountsPartition(fleet: seq<SensorState>)
    ensures CountOccupied(fleet, true) + CountOccupied(fleet, false) == |fleet|
  {
    if fleet != [] {
      OccupancyCountsPartition(fleet[..|fleet| - 1]);
    }
  }

  /** No event is both an arrival and a departure. */
  lemma {:induction false} EventCountsBounded(history: seq<ParkingEvent>)
    ensures CountEvents(history, Arrival) + CountEvents(history, Departure) <= |history|
  {
    if history != [] {
      EventCountsBounded(history[..|history| - 1]);
    }
  }

  /** Event counts over a history that grows at its end. */
  lemma {:induction false} CountEventsAppend(a: seq<ParkingEvent>, b: seq<ParkingEvent>, t: EventType)
    ensures CountEvents(a + b, t) == CountEvents(a, t) + CountEvents(b, t)
    decreases |b|
  {
    if b == [] {
      assert a + b == a;
    } else {
      var n := |b| - 1;
      assert (a + b)[..|a + b| - 1] == a + b[..n];
      assert (a + b)[|a + b| - 1] == b[n];
      CountEventsAppend(a, b[..n], t);
    }
  }

  /** Events all of one type count fully under it and not at all under another. */
  lemma {:induction false} CountEventsUniform(history: seq<ParkingEvent>, t: EventType, u: EventType)
    requires forall e | e in history :: e.eventType == t
    ensures CountEvents(history, t) == |history|
    ensures u != t ==> CountEvents(history, u) == 0
  {
    if history != [] {
      var n := |history| - 1;
      assert history[n] in history;
      assert forall e | e in history[..n] :: e in history;
      CountEventsUniform(history[..n], t, u);
    }
  }

  /** A fully occupied fleet has no free slot. */
  lemma {:induction false} CountOccupiedAll(fleet: seq<SensorState>)
    requires forall j | 0 <= j < |fleet| :: fleet[j].occupied
    ensures CountOccupied(fleet, true) == |fleet| && CountOccupied(fleet, false) == 0
  {
    if fleet != [] {
      CountOccupiedAll(fleet[..|fleet| - 1]);
    }
  }

  datatype LocationStats = LocationStats(totalSlots: nat, occupiedSlots: nat, activeSensors: nat)

  /** An insertion-ordered dictionary from location to its statistics. */
  datatype Breakdown = Breakdown(locations: seq<string>, stats: map<string, LocationStats>)

  ghost predicate WellFormed(b: Breakdown) {
    && (forall i, j | 0 <= i < j < |b.locations| :: b.locations[i] != b.locations[j])
    && (forall l :: l in b.stats <==> l in b.locations)
  }

  const EmptyBreakdown: Breakdown := Breakdown([], map[])

  /** One sensor counted into the breakdown: its location gets an all-zero
      entry at the end if it has none yet, then its counters go up. */
  function Tally(b: Breakdown, s: SensorState): Breakdown {
    var known := s.location in b.stats;
    var st := if known then b.stats[s.location] else LocationStats(0, 0, 0);
    var locations := if known then b.locations else b.locations + [s.location];
    Breakdown(locations, b.stats[s.location := LocationStats(
      st.totalSlots + 1,
      st.occupiedSlots + (if s.occupied then 1 else 0),
      st.activeSensors + (if s.status == Active then 1 else 0))])
  }

  /** The breakdown of a fleet, sensors taken in order. */
  function BreakdownOf(fleet: seq<SensorState>): (b: Breakdown)
    ensures WellFormed(b)
  {
    if fleet == [] then EmptyBreakdown else Tally(BreakdownOf(fleet[..|fleet| - 1]), fleet[|fleet| - 1])
  }

  function CountAt(fleet: seq<SensorState>, location: string): (k: nat)
    ensures k <= |fleet|
  {
    if fleet == [] then 0
    else CountAt(fleet[..|fleet| - 1], location) + (if fleet[|fleet| - 1].location == location then 1 else 0)
  }

  function CountOccupiedAt(fleet: seq<SensorState>, location: string): nat {
    if fleet == [] then 0
    else
      var s := fleet[|fleet| - 1];
      CountOccupiedAt(fleet[..|fleet| - 1], location) + (if s.location == location && s.occupied then 1 else 0)
  }

  function CountActiveAt(fleet: seq<SensorState>, location: string): nat {
    if fleet == [] then 0
    else
      var s := fleet[|fleet| - 1];
      CountActiveAt(fleet[..|fleet| - 1], location) + (if s.location == location && s.status == Active then 1 else 0)
  }

  /** The breakdown agrees with counting sensor by sensor: a location has an
      entry exactly when some sensor is there, and the entry holds the number
      of sensors there, of those occupied, and of those active. */
  lemma {:induction false} BreakdownCounts(fleet: seq<SensorState>, location: string)
    ensures var b := BreakdownOf(fleet);
      && (location in b.stats <==> CountAt(fleet, location) > 0)
      && (location in b.stats ==>
            b.stats[location] == LocationStats(CountAt(fleet, location), CountOccupiedAt(fleet, location),
                                               CountActiveAt(fleet, location)))
  {
    if fleet != [] {
      BreakdownCounts(fleet[..|fleet| - 1], location);
      CountsAtBounded(fleet[..|fleet| - 1], location);
    }
  }

  lemma {:induction false} CountsAtBounded(fleet: seq<SensorState>, location: string)
    ensures CountOccupiedAt(fleet, location) <= CountAt(fleet, location)
    ensures CountActiveAt(fleet, location) <= CountAt(fleet, location)
  {
    if fleet != [] {
      CountsAtBounded(fleet[..|fleet| - 1], location);
    }
  }

  /** Per location, occupied slots and active sensors never exceed the
      slots, and every listed location has at least one slot (so the
      zero-slot branch of the rate formatting is never taken). */
  lemma BreakdownBounds(fleet: seq<SensorState>, location: string)
    requires location in BreakdownOf(fleet).stats
    ensures var st := BreakdownOf(fleet).stats[location];
      1 <= st.totalSlots && st.occupiedSlots <= st.totalSlots && st.activeSensors <= st.totalSlots
  {
    BreakdownCounts(fleet, location);
    CountsAtBounded(fleet, location);
  }

  /** The slots of the listed locations, added up in order. */
  function SumTotals(locations: seq<string>, stats: map<string, LocationStats>): nat
    requires forall l | l in locations :: l in stats
  {
    if locations == [] then 0
    else
      var n := |locations| - 1;
      SumTotals(locations[..n], stats) + stats[locations[n]].totalSlots
  }

  lemma {:induction false} SumTotalsFrame(locations: seq<string>, m1: map<string, LocationStats>, m2: map<string, LocationStats>)
    requires forall l | l in locations :: l in m1 && l in m2 && m1[l].totalSlots == m2[l].totalSlots
    ensures SumTotals(locations, m1) == SumTotals(locations, m2)
  {
    if locations != [] {
      SumTotalsFrame(locations[..|locations| - 1], m1, m2);
    }
  }

  /** Raising one listed location's slots by one raises the sum by one. */
  lemma {:induction false} SumTotalsBump(locations: seq<string>, m: map<string, LocationStats>,
                                         location: string, v: LocationStats)
    requires forall l | l in locations :: l in m
    requires forall i, j | 0 <= i < j < |locations| :: locations[i] != locations[j]
    requires location in locations && v.totalSlots == m[location].totalSlots + 1
    ensures SumTotals(locations, m[location := v]) == SumTotals(locations, m) + 1
  {
    var n := |locations| - 1;
    var prefix := locations[..n];
    if locations[n] == location {
      assert location !in prefix by {
        forall i | 0 <= i < n ensures prefix[i] != location {
          assert prefix[i] == locations[i];
        }
      }
      SumTotalsFrame(prefix, m, m[location := v]);
    } else {
      assert location in prefix by {
        var i :| 0 <= i < |locations| && locations[i] == location;
        assert prefix[i] == location;
      }
      SumTotalsBump(prefix, m, location, v);
    }
  }

  /** The slots of all locations add up to the number of sensors. */
  lemma {:induction false} BreakdownTotal(fleet: seq<SensorState>)
    ensures var b := BreakdownOf(fleet); SumTotals(b.locations, b.stats) == |fleet|
  {
    if fleet != [] {
      var prior := BreakdownOf(fleet[..|fleet| - 1]);
      var s := fleet[|fleet| - 1];
      var b := Tally(prior, s);
      BreakdownTotal(fleet[..|fleet| - 1]);
      if s.location in prior.stats {
        SumTotalsBump(prior.locations, prior.stats, s.location, b.stats[s.location]);
      } else {
        var n := |b.locations| - 1;
        assert b.locations[..n] == prior.locations;
        SumTotalsFrame(prior.locations, prior.stats, b.stats);
      }
    }
  }

  datatype SimulationReport = SimulationReport(
    totalSensors: nat,
    activeSensors: nat,
    lowBatterySensors: nat,
    offlineSensors: nat,
    occupiedSlots: nat,
    freeSlots: nat,
    totalEvents: nat,
    carArrivals: nat,
    carDepartures: nat,
    locationBreakdown: Breakdown,
    timestamp: Timestamp)

  /** The report cannot be built for an empty fleet: the averages divide by
      the number of sensors (`ZeroDivisionError`). */
  datatype ReportError = NoSensors

  /** `generate_simulation_report`, integer parts. */
  function ReportOf(fleet: seq<SensorState>, history: seq<ParkingEvent>, now: Timestamp)
    : (r: Result<SimulationReport, ReportError>)
    ensures r.Failure? <==> fleet == []
    ensures r.Success? ==>
      var rep := r.value;
      && rep.totalSensors == |fleet|
      && rep.activeSensors + rep.lowBatterySensors + rep.offlineSensors == rep.totalSensors
      && rep.occupiedSlots + rep.freeSlots == rep.totalSensors
      && rep.totalEvents == |history|
      && rep.carArrivals + rep.carDepartures <= rep.totalEvents
      && WellFormed(rep.locationBreakdown)
      && SumTotals(rep.locationBreakdown.locations, rep.locationBreakdown.stats) == rep.totalSensors
  {
    if fleet == [] then Failure(NoSensors)
    else
      StatusCountsPartition(fleet);
      OccupancyCountsPartition(fleet);
      EventCountsBounded(history);
      BreakdownTotal(fleet);
      Success(SimulationReport(
        |fleet|,
        CountStatus(fleet, Active),
        CountStatus(fleet, LowBattery),
        CountStatus(fleet, Offline),
        CountOccupied(fleet, true),
        CountOccupied(fleet, false),
        |history|,
        CountEvents(history, Arrival),
        CountEvents(history, Departure),
        BreakdownOf(fleet),
        now))
  }
  /** Appending arrivals to a history adds that many arrivals and no departure. */
  lemma ArrivalsAppended(history: seq<ParkingEvent>, arrivals: seq<ParkingEvent>)
    requires forall e | e in arrivals :: e.eventType == Arrival
    ensures CountEvents(history + arrivals, Arrival) == CountEvents(history, Arrival) + |arrivals|
    ensures CountEvents(history + arrivals, Departure) == CountEvents(history, Departure)
  {
    CountEventsUniform(arrivals, Arrival, Departure);
    CountEventsAppend(history, arrivals, Arrival);
    CountEventsAppend(history, arrivals, Departure);
  }

  /** The report of a non-empty fleet, field by field. */
  lemma ReportFields(fleet: seq<SensorState>, history: seq<ParkingEvent>, now: Timestamp)
    requires fleet != []
    ensures ReportOf(fleet, history, now) == Success(SimulationReport(
      |fleet|,
      CountStatus(fleet, Active), CountStatus(fleet, LowBattery), CountStatus(fleet, Offline),
      CountOccupied(fleet, true), CountOccupied(fleet, false),
      |history|, CountEvents(history, Arrival), CountEvents(history, Departure),
      BreakdownOf(fleet), now))
  {
  }

}
