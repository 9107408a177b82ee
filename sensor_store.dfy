/**
 * The shared store and its two write paths: a sensor ingesting a record
 * (which may escalate its status) and a user resetting a sensor to CALM.
 * Each write is stated first as a pure step on a snapshot of the store; the
 * `Store` class then performs it in place and is proved to agree with it.
 */
module SensorStore {
  import opened StatusEngine
  import opened Documents
  import opened Directory
  import opened AccessGuard
  import opened RecordLog
  import opened Queries

  /** A snapshot of the three collections. */
  datatype Db = Db(users: seq<User>, sensors: seq<Sensor>, records: seq<Record>)

  /** The reply of a write request and the store it leaves behind. */
  datatype Step = Step(reply: Result<string>, db: Db)

  /** Ids are unique in each collection and every record belongs to an existing sensor. */
  ghost predicate Consistent(db: Db)
  {
    && UniqueUserIds(db.users)
    && UniqueSensorIds(db.sensors)
    && forall k :: 0 <= k < |db.records| ==> HasSensor(db.sensors, db.records[k].sensorId)
  }

  ghost predicate HasSensor(sensors: seq<Sensor>, id: Id)
  {
    exists j :: 0 <= j < |sensors| && sensors[j].id == id
  }

  /** A sensor after one record: its status moves by `Next`, and `updatedAt` is refreshed only when it moves. */
  function Observe(s: Sensor, isTriggered: bool, now: Time): (t: Sensor)
    ensures t.status == Next(s.status, isTriggered)
    ensures t.updatedAt == if t.status != s.status then now else s.updatedAt
    ensures t.(status := s.status, updatedAt := s.updatedAt) == s
  {
    if Writes(s.status, isTriggered) then s.(status := Next(s.status, isTriggered), updatedAt := now) else s
  }

  /**
   * Ingestion of one record for the authenticated sensor: 404 and no change
   * when the sensor is missing; otherwise the sensor observes the record and
   * exactly one record is appended.
   */
  function Ingest(db: Db, sensorId: Id, isTriggered: bool, now: Time): (s: Step)
    requires UniqueSensorIds(db.sensors)
    ensures s.reply == Err(NotFound) <==> !HasSensor(db.sensors, sensorId)
    ensures s.reply.Err? ==> s.reply.error == NotFound && s.db == db
    ensures s.reply.Ok? ==> s.reply.value == RecordCreated
    ensures s.reply.Ok? ==> s.db.records == db.records + [Record(sensorId, isTriggered, now)]
    ensures s.db.users == db.users && |s.db.sensors| == |db.sensors| && UniqueSensorIds(s.db.sensors)
    ensures forall k :: 0 <= k < |db.sensors| ==>
      s.db.sensors[k] == if db.sensors[k].id == sensorId then Observe(db.sensors[k], isTriggered, now) else db.sensors[k]
  {
    match SensorById(db.sensors, sensorId)
    case None => Step(Err(NotFound), db)
    case Some(k) =>
      var sensors := db.sensors[k := Observe(db.sensors[k], isTriggered, now)];
      Step(Ok(RecordCreated), db.(sensors := sensors, records := db.records + [Record(sensorId, isTriggered, now)]))
  }

  /**
   * Reset by a user: 404 when the sensor is missing, 403 when the user does
   * not own it, and no change in either case; otherwise the sensor is CALM and
   * its `updatedAt` is the current time, whatever its status was.
   */
  function Reset(db: Db, userId: Id, sensorId: Id, now: Time): (s: Step)
    requires UniqueSensorIds(db.sensors)
    ensures s.reply == Err(NotFound) <==> !HasSensor(db.sensors, sensorId)
    ensures s.reply == Err(Forbidden) <==>
      exists k :: 0 <= k < |db.sensors| && db.sensors[k].id == sensorId && db.sensors[k].ownerId != userId
    ensures s.reply.Err? ==> s.db == db
    ensures s.reply.Err? ==> s.reply.error != Unauthorized
    ensures s.reply.Ok? ==> s.reply.value == StatusReset
    ensures s.db.users == db.users && s.db.records == db.records
    ensures |s.db.sensors| == |db.sensors| && UniqueSensorIds(s.db.sensors)
    ensures forall k :: 0 <= k < |db.sensors| ==>
      s.db.sensors[k] == if s.reply.Ok? && db.sensors[k].id == sensorId
                         then db.sensors[k].(status := CALM, updatedAt := now) else db.sensors[k]
  {
    match Guard(db.sensors, userId, sensorId)
    case Err(e) => Step(Err(e), db)
    case Ok(k) =>
      Step(Ok(StatusReset), db.(sensors := db.sensors[k := db.sensors[k].(status := CALM, updatedAt := now)]))
  }

  /** The record endpoint: 401 on bad sensor credentials (no change), otherwise ingestion for that sensor. */
  function PostRecord(db: Db, c: SensorCredentials, isTriggered: bool, now: Time): (s: Step)
    requires UniqueSensorIds(db.sensors)
    ensures s.reply == Err(Unauthorized) <==> GetSensorId(db.sensors, c).Err?
    ensures s.reply == Err(Unauthorized) ==> s.db == db
    ensures s.reply != Err(Unauthorized) ==> s == Ingest(db, c.sensorId, isTriggered, now)
  {
    match GetSensorId(db.sensors, c)
    case Err(e) => Step(Err(e), db)
    case Ok(id) => Ingest(db, id, isTriggered, now)
  }

  /** The reset endpoint: 401 on bad user credentials (no change), otherwise the reset. */
  function PutReset(db: Db, c: UserCredentials, sensorId: Id, now: Time): (s: Step)
    requires UniqueSensorIds(db.sensors)
    ensures s.reply == Err(Unauthorized) <==> GetUserId(db.users, c).Err?
    ensures s.reply == Err(Unauthorized) ==> s.db == db
    ensures s.reply != Err(Unauthorized) ==> s == Reset(db, GetUserId(db.users, c).value, sensorId, now)
  {
    match GetUserId(db.users, c)
    case Err(e) => Step(Err(e), db)
    case Ok(id) => Reset(db, id, sensorId, now)
  }

  /** Ingestion keeps the store consistent: the new record belongs to an existing sensor. */
  lemma IngestKeepsConsistent(db: Db, sensorId: Id, isTriggered: bool, now: Time)
    requires Consistent(db)
    ensures Consistent(Ingest(db, sensorId, isTriggered, now).db)
  {
  }

  /** A reset keeps the store consistent. */
  lemma ResetKeepsConsistent(db: Db, userId: Id, sensorId: Id, now: Time)
    requires Consistent(db)
    ensures Consistent(Reset(db, userId, sensorId, now).db)
  {
  }

  /** A record that is not triggered appends the record and changes no sensor, whatever its status. */
  lemma UntriggeredChangesNoSensor(db: Db, sensorId: Id, now: Time)
    requires UniqueSensorIds(db.sensors)
    ensures Ingest(db, sensorId, false, now).db.sensors == db.sensors
  {
  }

  /** An ALERT sensor keeps its status and its `updatedAt` under any record. */
  lemma AlertIngestChangesNoSensor(db: Db, sensorId: Id, isTriggered: bool, now: Time)
    requires UniqueSensorIds(db.sensors)
    requires forall k :: 0 <= k < |db.sensors| && db.sensors[k].id == sensorId ==> db.sensors[k].status == ALERT
    ensures Ingest(db, sensorId, isTriggered, now).db.sensors == db.sensors
  {
  }

  /** Authenticated sensors always exist, so the record endpoint never answers 404. */
  lemma AuthenticatedIngestSucceeds(db: Db, c: SensorCredentials, isTriggered: bool, now: Time)
    requires UniqueSensorIds(db.sensors)
    requires GetSensorId(db.sensors, c).Ok?
    ensures PostRecord(db, c, isTriggered, now).reply == Ok(RecordCreated)
  {
  }

  /**
   * Resetting twice is the same as resetting once at the later time: the
   * reply is the same, the sensor is CALM and the records are untouched.
   */
  lemma ResetIdempotent(db: Db, userId: Id, sensorId: Id, t1: Time, t2: Time)
    requires UniqueSensorIds(db.sensors)
    ensures UniqueSensorIds(Reset(db, userId, sensorId, t1).db.sensors)
    ensures Reset(Reset(db, userId, sensorId, t1).db, userId, sensorId, t2) == Reset(db, userId, sensorId, t2)
  {
  }

  /**
   * Two triggered records take a CALM sensor to WARNING and then ALERT, a
   * further untriggered record leaves it in ALERT, and a reset brings it back
   * to CALM; each ingestion appended one record and the reset none.
   */
  lemma EscalationScenario(db: Db, k: nat, owner: Id, t1: Time, t2: Time, t3: Time, t4: Time)
    requires UniqueSensorIds(db.sensors)
    requires k < |db.sensors| && db.sensors[k].ownerId == owner && db.sensors[k].status == CALM
    ensures var id := db.sensors[k].id;
      var s1 := Ingest(db, id, true, t1);
      var s2 := Ingest(s1.db, id, true, t2);
      var s3 := Ingest(s2.db, id, false, t3);
      var s4 := Reset(s3.db, owner, id, t4);
      && s1.db.sensors[k].status == WARNING && s1.db.sensors[k].updatedAt == t1
      && s2.db.sensors[k].status == ALERT && s2.db.sensors[k].updatedAt == t2
      && s3.db.sensors[k].status == ALERT && s3.db.sensors[k].updatedAt == t2
      && s4.reply == Ok(StatusReset)
      && s4.db.sensors[k].status == CALM && s4.db.sensors[k].updatedAt == t4
      && s4.db.records == db.records + [Record(id, true, t1), Record(id, true, t2), Record(id, false, t3)]
  {
    var id := db.sensors[k].id;
    var s1 := IngestAt(db, k, true, t1);
    var s2 := IngestAt(s1.db, k, true, t2);
    var s3 := IngestAt(s2.db, k, false, t3);
    var s4 := Reset(s3.db, owner, id, t4);
    assert s4.reply.Ok? && s4.db.sensors[k] == s3.db.sensors[k].(status := CALM, updatedAt := t4) by {
      assert s3.db.sensors[k].ownerId == owner && s3.db.sensors[k].id == id;
    }
    AppendThree(db.records, Record(id, true, t1), Record(id, true, t2), Record(id, false, t3));
  }

  /** One ingestion for the sensor at index `k`, seen from that sensor. */
  lemma IngestAt(db: Db, k: nat, isTriggered: bool, now: Time) returns (s: Step)
    requires UniqueSensorIds(db.sensors) && k < |db.sensors|
    ensures s == Ingest(db, db.sensors[k].id, isTriggered, now)
    ensures UniqueSensorIds(s.db.sensors) && k < |s.db.sensors|
    ensures s.db.sensors[k] == Observe(db.sensors[k], isTriggered, now)
    ensures s.db.records == db.records + [Record(db.sensors[k].id, isTriggered, now)]
  {
    s := Ingest(db, db.sensors[k].id, isTriggered, now);
  }

  lemma AppendThree(s: seq<Record>, x: Record, y: Record, z: Record)
    ensures s + [x] + [y] + [z] == s + [x, y, z]
    ensures [x, y, z] == [x, y] + [z] && [x, y] == [x] + [y] && [x] == [] + [x]
  {
  }

  /**
   * After that sequence, a detail query with a limit of 3 on a sensor that had
   * no records before shows the three records newest first.
   */
  lemma ScenarioDetail(records: seq<Record>, id: Id, t1: Time, t2: Time, t3: Time)
    requires RecordsOf(records, id) == []
    requires t1 < t2 < t3
    ensures Views(Recent(records + [Record(id, true, t1), Record(id, true, t2), Record(id, false, t3)], id, 3))
            == [RecordView(false, t3), RecordView(true, t2), RecordView(true, t1)]
  {
    var r1, r2, r3 := Record(id, true, t1), Record(id, true, t2), Record(id, false, t3);
    ThreeRecent(records, r1, r2, r3);
    ThreeViews(r3, r2, r1);
  }

  lemma ThreeViews(a: Record, b: Record, c: Record)
    ensures Views([a, b, c]) == [RecordView(a.isTriggered, a.createdAt), RecordView(b.isTriggered, b.createdAt),
                                 RecordView(c.isTriggered, c.createdAt)]
  {
  }

  lemma ThreeRecent(records: seq<Record>, r1: Record, r2: Record, r3: Record)
    requires r1.sensorId == r2.sensorId == r3.sensorId
    requires RecordsOf(records, r1.sensorId) == []
    requires r1.createdAt <= r2.createdAt <= r3.createdAt
    ensures Recent(records + [r1, r2, r3], r1.sensorId, 3) == [r3, r2, r1]
  {
    ThreeRecordsOf(records, r1, r2, r3);
    ThreeNewestFirst(r1, r2, r3);
    assert Limit([r3, r2, r1], 3) == [r3, r2, r1];
  }

  lemma ThreeRecordsOf(records: seq<Record>, r1: Record, r2: Record, r3: Record)
    requires r1.sensorId == r2.sensorId == r3.sensorId
    requires RecordsOf(records, r1.sensorId) == []
    ensures RecordsOf(records + [r1, r2, r3], r1.sensorId) == [r1, r2, r3]
  {
    AppendThree(records, r1, r2, r3);
    RecordsOfAppend(records, r1, r1.sensorId);
    RecordsOfAppend(records + [r1], r2, r1.sensorId);
    RecordsOfAppend(records + [r1] + [r2], r3, r1.sensorId);
  }

  lemma ThreeNewestFirst(r1: Record, r2: Record, r3: Record)
    requires r1.createdAt <= r2.createdAt <= r3.createdAt
    ensures NewestFirst([r1, r2, r3]) == [r3, r2, r1]
  {
    AppendThree([], r1, r2, r3);
    NewestFirstAppend([], r1);
    NewestFirstAppend([r1], r2);
    NewestFirstAppend([r1, r2], r3);
  }

  /**
   * The shared store, updated in place by the two write endpoints. Its
   * methods are proved to perform the pure steps above.
   */
  class Store {
    var users: seq<User>
    var sensors: seq<Sensor>
    var records: seq<Record>

    function State(): Db
      reads this
    {
      Db(users, sensors, records)
    }

    ghost predicate Valid()
      reads this
    {
      Consistent(State())
    }

    /** A store with the given users and sensors and no records yet. */
    constructor (users: seq<User>, sensors: seq<Sensor>)
      requires UniqueUserIds(users) && UniqueSensorIds(sensors)
      ensures Valid() && State() == Db(users, sensors, [])
    {
      this.users := users;
      this.sensors := sensors;
      this.records := [];
    }

    /**
     * Stores one record for the sensor: a triggered record escalates a CALM or
     * WARNING sensor and stamps the transition; every record is appended.
     */
    method CreateSensorRecord(sensorId: Id, isTriggered: bool, now: Time) returns (r: Result<string>)
      requires Valid()
      modifies this
      ensures Valid()
      ensures Step(r, State()) == Ingest(old(State()), sensorId, isTriggered, now)
    {
      IngestKeepsConsistent(State(), sensorId, isTriggered, now);
      var found := SensorById(sensors, sensorId);
      if found.None? {
        return Err(NotFound);
      }
      var k := found.value;
      var sensor := sensors[k];
      if isTriggered {
        if sensor.status == CALM {
          sensors := sensors[k := sensor.(status := WARNING, updatedAt := now)];
        } else if sensor.status == WARNING {
          sensors := sensors[k := sensor.(status := ALERT, updatedAt := now)];
        }
      }
      records := records + [Record(sensorId, isTriggered, now)];
      r := Ok(RecordCreated);
    }

    /** Puts a sensor the caller owns back to CALM; 404 before 403, and no change on either. */
    method ResetSensorStatus(userId: Id, sensorId: Id, now: Time) returns (r: Result<string>)
      requires Valid()
      modifies this
      ensures Valid()
      ensures Step(r, State()) == Reset(old(State()), userId, sensorId, now)
    {
      ResetKeepsConsistent(State(), userId, sensorId, now);
      var found := SensorById(sensors, sensorId);
      if found.None? {
        return Err(NotFound);
      }
      var k := found.value;
      if sensors[k].ownerId != userId {
        return Err(Forbidden);
      }
      sensors := sensors[k := sensors[k].(status := CALM, updatedAt := now)];
      r := Ok(StatusReset);
    }

    /** The record endpoint: the sensor's credentials are checked first (401). */
    method HandleRecord(c: SensorCredentials, isTriggered: bool, now: Time) returns (r: Result<string>)
      requires Valid()
      modifies this
      ensures Valid()
      ensures Step(r, State()) == PostRecord(old(State()), c, isTriggered, now)
    {
      var auth := GetSensorId(sensors, c);
      if auth.Err? {
        return Err(auth.error);
      }
      r := CreateSensorRecord(auth.value, isTriggered, now);
    }

    /** The reset endpoint: the user's credentials are checked first (401). */
    method HandleReset(c: UserCredentials, sensorId: Id, now: Time) returns (r: Result<string>)
      requires Valid()
      modifies this
      ensures Valid()
      ensures Step(r, State()) == PutReset(old(State()), c, sensorId, now)
    {
      var auth := GetUserId(users, c);
      if auth.Err? {
        return Err(auth.error);
      }
      r := ResetSensorStatus(auth.value, sensorId, now);
    }
  }
}
