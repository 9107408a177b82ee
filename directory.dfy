/**
 * Credential lookup: resolves HTTP Basic credentials to the id of a user or
 * of a sensor. A lookup by key returns the first matching document in store
 * order, as the store's find_one does.
 */
module Directory {
  import opened Documents

  /** Index of the first element of `s` whose key is `k`, if there is one. */
  function FirstIndex<T, K(==)>(s: seq<T>, key: T -> K, k: K): (r: Option<nat>)
    ensures r.Some? ==> r.value < |s| && key(s[r.value]) == k
    ensures r.Some? ==> forall j :: 0 <= j < r.value ==> key(s[j]) != k
    ensures r.None? <==> forall j :: 0 <= j < |s| ==> key(s[j]) != k
  {
    if s == [] then None
    else if key(s[0]) == k then Some(0)
    else match FirstIndex(s[1..], key, k)
      case None => None
      case Some(i) => Some(i + 1)
  }

  function UserByUsername(users: seq<User>, username: string): Option<nat>
  {
    FirstIndex(users, (u: User) => u.username, username)
  }

  function UserById(users: seq<User>, id: Id): Option<nat>
  {
    FirstIndex(users, (u: User) => u.id, id)
  }

  function SensorById(sensors: seq<Sensor>, id: Id): Option<nat>
  {
    FirstIndex(sensors, (s: Sensor) => s.id, id)
  }

  /** No two documents of a collection share an id (the store's unique _id index). */
  ghost predicate UniqueUserIds(users: seq<User>)
  {
    forall i, j :: 0 <= i < j < |users| ==> users[i].id != users[j].id
  }

  ghost predicate UniqueSensorIds(sensors: seq<Sensor>)
  {
    forall i, j :: 0 <= i < j < |sensors| ==> sensors[i].id != sensors[j].id
  }

  /**
   * The user id for a pair of user credentials: the first user with that user
   * name, provided its password is the one presented; 401 otherwise.
   */
  function GetUserId(users: seq<User>, c: UserCredentials): (r: Result<Id>)
    ensures r.Ok? <==>
      exists i :: 0 <= i < |users| && users[i].username == c.username && users[i].password == c.password &&
                  forall j :: 0 <= j < i ==> users[j].username != c.username
    ensures r.Ok? ==> exists i :: 0 <= i < |users| && users[i].id == r.value &&
                                  users[i].username == c.username && users[i].password == c.password
    ensures r.Ok? ==> UserByUsername(users, c.username).Some? &&
                      r.value == users[UserByUsername(users, c.username).value].id
    ensures r.Err? ==> r.error == Unauthorized
  {
    match UserByUsername(users, c.username)
    case Some(i) =>
      if users[i].password == c.password then Ok(users[i].id) else Err(Unauthorized)
    case None => Err(Unauthorized)
  }

  /**
   * The sensor id for a pair of sensor credentials: the id itself, provided a
   * sensor with that id exists and its password is the one presented; 401 otherwise.
   */
  function GetSensorId(sensors: seq<Sensor>, c: SensorCredentials): (r: Result<Id>)
    requires UniqueSensorIds(sensors)
    ensures r.Ok? <==>
      exists i :: 0 <= i < |sensors| && sensors[i].id == c.sensorId && sensors[i].password == c.password
    ensures r.Ok? ==> r.value == c.sensorId
    ensures r.Err? ==> r.error == Unauthorized
  {
    match SensorById(sensors, c.sensorId)
    case Some(i) =>
      if sensors[i].password == c.password then Ok(sensors[i].id) else Err(Unauthorized)
    case None => Err(Unauthorized)
  }

  /** When user names are unique, the credentials succeed exactly when some user has that name and password. */
  lemma GetUserIdUniqueNames(users: seq<User>, c: UserCredentials)
    requires forall i, j :: 0 <= i < j < |users| ==> users[i].username != users[j].username
    ensures GetUserId(users, c).Ok? <==>
      exists i :: 0 <= i < |users| && users[i].username == c.username && users[i].password == c.password
  {
  }
}
