/**
 * The read endpoints: the current user's profile, the list of the user's
 * sensors, and one sensor's detail with its most recent records. Each
 * endpoint first resolves the caller's credentials (401 on failure).
 */
module Queries {
  import opened StatusEngine
  import opened Documents
  import opened Directory
  import opened AccessGuard
  import opened RecordLog

  function ViewOf(u: User): UserView
  {
    UserView(u.name, u.username, u.email)
  }

  function SummaryOf(s: Sensor): SensorSummary
  {
    SensorSummary(s.name, s.status, s.location)
  }

  function Views(rs: seq<Record>): (v: seq<RecordView>)
    ensures |v| == |rs|
    ensures forall k :: 0 <= k < |rs| ==> v[k] == RecordView(rs[k].isTriggered, rs[k].createdAt)
  {
    seq(|rs|, k requires 0 <= k < |rs| => RecordView(rs[k].isTriggered, rs[k].createdAt))
  }

  /** The profile of the user with the given id; 404 when no user has it. */
  function ReadCurrentUser(users: seq<User>, userId: Id): (r: Result<UserView>)
    ensures r.Err? <==> forall k :: 0 <= k < |users| ==> users[k].id != userId
    ensures r.Err? ==> r.error == NotFound
    ensures r.Ok? ==> exists k :: 0 <= k < |users| && users[k].id == userId && r.value == ViewOf(users[k])
  {
    match UserById(users, userId)
    case None => Err(NotFound)
    case Some(k) => Ok(ViewOf(users[k]))
  }

  /** The sensors a user owns, in store order. */
  function OwnedBy(sensors: seq<Sensor>, ownerId: Id): (r: seq<Sensor>)
    ensures forall k :: 0 <= k < |r| ==> r[k].ownerId == ownerId
    ensures forall s :: multiset(r)[s] == if s.ownerId == ownerId then multiset(sensors)[s] else 0
  {
    if sensors == [] then []
    else
      var last := sensors[|sensors| - 1];
      assert sensors == sensors[..|sensors| - 1] + [last];
      OwnedBy(sensors[..|sensors| - 1], ownerId) + (if last.ownerId == ownerId then [last] else [])
  }

  /**
   * The summaries of the caller's sensors. The store's query result is never
   * empty as a value, so the endpoint's "not found" branch is never taken: a
   * user with no sensors gets an empty list.
   */
  function ReadSensors(sensors: seq<Sensor>, userId: Id): (r: Result<seq<SensorSummary>>)
    ensures r.Ok?
    ensures |r.value| == |OwnedBy(sensors, userId)|
    ensures forall k :: 0 <= k < |r.value| ==> r.value[k] == SummaryOf(OwnedBy(sensors, userId)[k])
  {
    var owned := OwnedBy(sensors, userId);
    Ok(seq(|owned|, k requires 0 <= k < |owned| => SummaryOf(owned[k])))
  }

  /** A sensor appears in the list exactly when the caller owns it. */
  lemma ReadSensorsExactlyOwned(sensors: seq<Sensor>, userId: Id, s: Sensor)
    ensures s in OwnedBy(sensors, userId) <==> s in sensors && s.ownerId == userId
  {
  }

  /** A user who owns no sensor gets an empty list, not an error. */
  lemma NoSensorsEmptyList(sensors: seq<Sensor>, userId: Id)
    requires forall k :: 0 <= k < |sensors| ==> sensors[k].ownerId != userId
    ensures ReadSensors(sensors, userId) == Ok([])
  {
  }

  /**
   * A sensor's detail: 404 when no sensor has the id, 403 when the caller does
   * not own it, otherwise its fields and its most recent records.
   */
  function ReadSensor(sensors: seq<Sensor>, records: seq<Record>, userId: Id, sensorId: Id, limit: int)
    : (r: Result<SensorDetail>)
    requires UniqueSensorIds(sensors)
    ensures r == Err(NotFound) <==> forall k :: 0 <= k < |sensors| ==> sensors[k].id != sensorId
    ensures r == Err(Forbidden) <==>
      exists k :: 0 <= k < |sensors| && sensors[k].id == sensorId && sensors[k].ownerId != userId
    ensures r.Err? ==> r.error != Unauthorized
    ensures r.Ok? ==>
      exists k :: 0 <= k < |sensors| && sensors[k].id == sensorId && sensors[k].ownerId == userId &&
                  r.value == SensorDetail(sensors[k].name, sensors[k].status, sensors[k].updatedAt,
                                          sensors[k].location, Views(Recent(records, sensorId, limit)))
  {
    match Guard(sensors, userId, sensorId)
    case Err(e) => Err(e)
    case Ok(k) =>
      var s := sensors[k];
      Ok(SensorDetail(s.name, s.status, s.updatedAt, s.location, Views(Recent(records, sensorId, limit))))
  }

  /**
   * The records of a detail are the sensor's own records, newest first, as many
   * as it has up to the limit, and none it leaves out is newer than one shown.
   */
  lemma ReadSensorRecords(sensors: seq<Sensor>, records: seq<Record>, userId: Id, sensorId: Id, limit: int)
    requires UniqueSensorIds(sensors)
    ensures var r := ReadSensor(sensors, records, userId, sensorId, limit);
      r.Ok? ==>
        var shown := r.value.records;
        && (var n := |RecordsOf(records, sensorId)|; |shown| == if limit == 0 || n <= Abs(limit) then n else Abs(limit))
        && (forall i, j :: 0 <= i < j < |shown| ==> shown[i].createdAt >= shown[j].createdAt)
        && (forall k :: 0 <= k < |shown| ==> Record(sensorId, shown[k].isTriggered, shown[k].createdAt) in records)
  {
    var rs := Recent(records, sensorId, limit);
    RecentOwnRecords(records, sensorId, limit);
    RecentOrderAndCount(records, sensorId, limit);
    forall k | 0 <= k < |rs| ensures Record(sensorId, rs[k].isTriggered, rs[k].createdAt) in records {
      assert rs[k] in multiset(rs);
      assert rs[k] in multiset(records);
    }
  }

  /** Without an explicit limit, a detail shows the sensor's ten newest records, or all of them if it has fewer. */
  lemma DefaultLimitShowsTen(sensors: seq<Sensor>, records: seq<Record>, userId: Id, sensorId: Id)
    requires UniqueSensorIds(sensors)
    ensures var r := ReadSensor(sensors, records, userId, sensorId, DefaultRecordsLimit);
      r.Ok? ==> |r.value.records| == Min(|RecordsOf(records, sensorId)|, 10)
  {
    RecentOrderAndCount(records, sensorId, DefaultRecordsLimit);
  }

  /** The profile endpoint: 401 on bad credentials, otherwise the caller's profile. */
  function GetMe(users: seq<User>, c: UserCredentials): (r: Result<UserView>)
    ensures r == Err(Unauthorized) <==> GetUserId(users, c).Err?
    ensures r.Err? ==> r.error == Unauthorized || r.error == NotFound
  {
    match GetUserId(users, c)
    case Err(e) => Err(e)
    case Ok(id) => ReadCurrentUser(users, id)
  }

  /** An authenticated caller always finds their own profile: the 404 branch is not taken. */
  lemma AuthenticatedUserHasProfile(users: seq<User>, c: UserCredentials)
    requires UniqueUserIds(users)
    requires GetUserId(users, c).Ok?
    ensures GetMe(users, c) == Ok(UserView(
      users[UserByUsername(users, c.username).value].name, c.username,
      users[UserByUsername(users, c.username).value].email))
  {
  }

  /** The sensor list endpoint: 401 on bad credentials, otherwise the caller's sensors. */
  function GetSensors(users: seq<User>, sensors: seq<Sensor>, c: UserCredentials): (r: Result<seq<SensorSummary>>)
    ensures r.Err? <==> GetUserId(users, c).Err?
    ensures r.Err? ==> r.error == Unauthorized
    ensures r.Ok? ==> r == ReadSensors(sensors, GetUserId(users, c).value)
  {
    match GetUserId(users, c)
    case Err(e) => Err(e)
    case Ok(id) => ReadSensors(sensors, id)
  }

  /** The detail endpoint: 401 on bad credentials, then 404, then 403, then the detail. */
  function GetSensor(users: seq<User>, sensors: seq<Sensor>, records: seq<Record>, c: UserCredentials,
                     sensorId: Id, limit: int): (r: Result<SensorDetail>)
    requires UniqueSensorIds(sensors)
    ensures r == Err(Unauthorized) <==> GetUserId(users, c).Err?
    ensures GetUserId(users, c).Ok? ==> r == ReadSensor(sensors, records, GetUserId(users, c).value, sensorId, limit)
  {
    match GetUserId(users, c)
    case Err(e) => Err(e)
    case Ok(id) => ReadSensor(sensors, records, id, sensorId, limit)
  }
}
