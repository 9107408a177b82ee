/**
 * The ownership guard shared by the detail and the reset endpoints: a missing
 * sensor gives 404, and only a sensor that exists is checked for ownership,
 * which gives 403.
 */
module AccessGuard {
  import opened Documents
  import opened Directory

  /** The index of the sensor a user may act on, or the error that stops the request. */
  function Guard(sensors: seq<Sensor>, userId: Id, sensorId: Id): (r: Result<nat>)
    requires UniqueSensorIds(sensors)
    ensures r == Err(NotFound) <==> forall k :: 0 <= k < |sensors| ==> sensors[k].id != sensorId
    ensures r == Err(Forbidden) <==>
      exists k :: 0 <= k < |sensors| && sensors[k].id == sensorId && sensors[k].ownerId != userId
    ensures r.Ok? <==>
      exists k :: 0 <= k < |sensors| && sensors[k].id == sensorId && sensors[k].ownerId == userId
    ensures r.Ok? ==> r.value < |sensors| && sensors[r.value].id == sensorId && sensors[r.value].ownerId == userId
    ensures r.Err? ==> r.error != Unauthorized
  {
    match SensorById(sensors, sensorId)
    case None => Err(NotFound)
    case Some(k) => if sensors[k].ownerId != userId then Err(Forbidden) else Ok(k)
  }

  /** Existence is checked first: a missing sensor gives 404 whoever asks. */
  lemma NotFoundBeforeForbidden(sensors: seq<Sensor>, userId: Id, other: Id, sensorId: Id)
    requires UniqueSensorIds(sensors)
    requires Guard(sensors, userId, sensorId) == Err(NotFound)
    ensures Guard(sensors, other, sensorId) == Err(NotFound)
  {
  }
}
