/** The two records of the parking system: a sensor, owned by the simulator
    and updated in place every cycle, and a parking event, an immutable value
    produced by the sensors and consumed by the ledger submitter. */
module Records {

  /** `datetime.now()` readings are opaque instants. */
  type Timestamp = nat

  /** The status strings 'active', 'low_battery' and 'offline'. */
  datatype Status = Active | LowBattery | Offline

  /** The event-type strings 'initialization', 'arrival', 'departure' and 'heartbeat'. */
  datatype EventType = Initialization | Arrival | Departure | Heartbeat

  datatype ParkingEvent = ParkingEvent(
    sensorId: string,
    slotId: string,
    location: string,
    occupied: bool,
    timestamp: Timestamp,
    confidence: real,
    eventType: EventType)

  /** The value of a sensor's fields at one moment. */
  datatype SensorState = SensorState(
    sensorId: string,
    slotId: string,
    location: string,
    batteryLevel: real,
    lastReading: Timestamp,
    status: Status,
    occupied: bool,
    confidence: real)

  /** One occupancy sensor. Identity and location are fixed at creation; the
      other fields are mutated in place by the simulator. */
  class IoTSensor {
    const sensorId: string
    const slotId: string
    const location: string
    var batteryLevel: real
    var lastReading: Timestamp
    var status: Status
    var occupied: bool
    var confidence: real

    constructor (sensorId: string, slotId: string, location: string, batteryLevel: real,
                 lastReading: Timestamp, status: Status, occupied: bool, confidence: real)
      ensures State() == SensorState(sensorId, slotId, location, batteryLevel,
                                     lastReading, status, occupied, confidence)
    {
      this.sensorId := sensorId;
      this.slotId := slotId;
      this.location := location;
      this.batteryLevel := batteryLevel;
      this.lastReading := lastReading;
      this.status := status;
      this.occupied := occupied;
      this.confidence := confidence;
    }

    /** The sensor's current field values. */
    function State(): SensorState
      reads this
    {
      SensorState(sensorId, slotId, location, batteryLevel, lastReading, status, occupied, confidence)
    }
  }
}
