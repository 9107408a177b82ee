/**
 * The documents of the three collections (users, sensors, records), the
 * replies the endpoints give and the error kinds they raise.
 */
module Documents {
  import opened StatusEngine

  /** A document id (an ObjectId in the store). */
  type Id = nat
  /** A clock reading; the request's current time is passed in explicitly. */
  type Time = int
  /** A password, compared for plain equality. */
  type Secret = string

  datatype Option<T> = None | Some(value: T)

  /** The HTTP errors the endpoints raise: 401, 403 and 404. */
  datatype Error = Unauthorized | Forbidden | NotFound

  datatype Result<T> = Ok(value: T) | Err(error: Error)

  datatype User = User(id: Id, name: string, username: string, email: string, password: Secret)

  datatype Sensor = Sensor(
    id: Id, name: string, location: string, ownerId: Id, password: Secret,
    status: Status, updatedAt: Time)

  datatype Record = Record(sensorId: Id, isTriggered: bool, createdAt: Time)

  /** HTTP Basic credentials: for a user the user name, for a sensor its own id. */
  datatype UserCredentials = UserCredentials(username: string, password: Secret)
  datatype SensorCredentials = SensorCredentials(sensorId: Id, password: Secret)

  /** The response bodies. */
  datatype UserView = UserView(name: string, username: string, email: string)
  datatype SensorSummary = SensorSummary(name: string, status: Status, location: string)
  datatype RecordView = RecordView(isTriggered: bool, createdAt: Time)
  datatype SensorDetail = SensorDetail(
    name: string, status: Status, updatedAt: Time, location: string, records: seq<RecordView>)

  /** The number of records a detail query shows when the caller gives no limit. */
  const DefaultRecordsLimit := 10

  const RecordCreated := "Record created"
  const StatusReset := "Sensor status reset successfully"
}
