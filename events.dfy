/** Value types shared by the event handler: the events the host delivers,
    the sensor classes they come from, and the result the handler reports. */
module Events {

  /** A three-axis sample (x, y, z). The program only copies these values,
      so `real` stands in for the C `float`. */
  datatype Vec3 = Vec3(x: real, y: real, z: real)

  /** The all-zero sample that a freshly initialised reading holds. */
  const Zero: Vec3 := Vec3(0.0, 0.0, 0.0)

  /** The type of the sensor that produced a sensor-update event, already
      resolved from the event's sensor id. */
  datatype SensorKind = Accel | Gyro | OtherSensor

  /** A key code: the fullscreen-toggle key F10, or any other key. */
  datatype Key = F10 | OtherKey(code: int)

  /** The data channels carried by a sensor-update event; the handler reads
      the first three. */
  type SensorData = d: seq<real> | |d| >= 3 witness [0.0, 0.0, 0.0]

  /** The first three channels of a sensor event, as one sample. */
  function Channels(d: SensorData): Vec3 {
    Vec3(d[0], d[1], d[2])
  }

  /** The events the handler tells apart; every other event type is `OtherEvent`. */
  datatype Event =
    | Quit
    | KeyDown(key: Key)
    | SensorUpdate(sensor: SensorKind, data: SensorData)
    | OtherEvent

  /** What the event handler reports to the host: keep running, or end the
      program reporting success. */
  datatype AppResult = Continue | Success
}
