// The value types of pkg/models and the broker record. Timestamps are integers
// in nanoseconds, readings are reals.
module Models {
  import opened Prelude

  datatype DeviceMetric = DeviceMetric(
    deviceID: string,
    timestamp: int,
    temperature: real,
    humidity: real,
    pressure: real,
    batteryLevel: real,
    firmwareVersion: string,
    locationID: string)

  datatype Device = Device(
    deviceID: string,
    name: string,
    locationID: string,
    firmwareVersion: string,
    active: bool)

  datatype AlertType = TempHigh | TempLow | BatteryLow | Offline | Spike

  datatype Severity = Low | Medium | High | Critical

  datatype DeviceAlert = DeviceAlert(
    deviceID: string,
    alertType: AlertType,
    severity: Severity,
    metricValue: real,
    thresholdValue: real,
    windowSeconds: int)

  datatype Header = Header(key: bytes, value: bytes)

  datatype Record = Record(
    topic: bytes,
    partition: int,
    offset: int,
    key: bytes,
    value: bytes,
    headers: seq<Header>)

  /** What deserializing the record gives: nothing when the schema registry does
      not answer, which may happen on good bytes. */
  function Deserialized(decode: bytes -> Option<DeviceMetric>, answers: Record -> bool, record: Record):
      Option<DeviceMetric> {
    if answers(record) then decode(record.value) else None
  }
}
