# Motion-sensor back end, modelled in Dafny

The system lets users watch remote motion sensors. A sensor authenticates
with its own id and password and posts records (`is_triggered` true or
false). Each sensor has a status that escalates CALM → WARNING → ALERT, one
step per triggered record. ALERT stays until the sensor's owner resets it to
CALM. Users authenticate with a user name and password. They can read their
profile, list the sensors they own, and read one sensor's detail with its
most recent records.

The model is a small in-memory store of three collections: users, sensors
and records. It has these parts:

- `StatusEngine` (`status_engine.dfy`): the status enumeration and the pure
  transition `Next`. `Severity` is the escalation order it climbs. `Run`
  applies a sequence of records.
- `Documents` (`documents.dfy`): the documents, the credentials, the response
  bodies and the 401/403/404 error kinds.
- `Directory` (`directory.dfy`): credential lookup. `FirstIndex` gives the
  store's find-one semantics: the first matching document in store order.
- `AccessGuard` (`access_guard.dfy`): the ownership check shared by detail and
  reset. A missing sensor gives 404, and only then is ownership checked (403).
- `RecordLog` (`record_log.dfy`): selects a sensor's records, sorts them newest
  first and applies the store's cursor limit.
- `Queries` (`queries.dfy`): the three read endpoints, with and without the
  credential check in front.
- `SensorStore` (`sensor_store.dfy`): ingestion and reset as pure steps on a
  snapshot (`Db`). The `Store` class performs them in place. Its methods
  follow the handlers' chained conditionals and are proved equal to the pure
  steps.

Timestamps are an explicit `now` parameter of each write. Store ids are
unique per collection, as the store's `_id` index guarantees. The invariant
`Consistent` adds that every record belongs to an existing sensor. Both
writes preserve it.

Some behaviours of the code are worth spelling out, because a reader might
expect otherwise:

- `records_limit` is not validated by the code. The store treats a limit of 0
  as "no limit" and a negative limit `-n` as `n`, and `RecordLog.Limit` does
  the same for every limit within the store's 64-bit integer range. A
  non-positive limit is not rejected as invalid input. When the
  caller gives no limit, the endpoint uses 10 (`DefaultRecordsLimit`).
- The "not found" branch of the sensor list (`main.py:94-95`) tests a query
  cursor, which is always truthy. The branch is never taken, so
  `Queries.ReadSensors` always succeeds, and a user with no sensors gets an
  empty list, which is the sensible answer, not an error.
- The ingestion endpoint is declared inside a repeated request-model class
  body (`main.py:184-191`). The route decorator still registers it, so the
  model treats it as an ordinary endpoint.
- Concurrent ingestions for one sensor can lose a status update, because the
  status is read and then written in two separate store calls. Avoiding that
  needs per-sensor serialisation, and the code has none. The model treats
  each request as one atomic step.
- User login checks only the first user with the presented user name. A
  later user with the same name and a matching password is still refused.
  `Directory.GetUserId` states this, and `Directory.GetUserIdUniqueNames`
  gives the simpler reading when user names are unique.

## Model

| member | source | states |
|---|---|---|
| StatusEngine.Next | main.py:202-212 | a triggered record raises the severity by one below ALERT and keeps ALERT; an untriggered record keeps the status; the status changes exactly when the handler writes the sensor (triggered and CALM or WARNING) |
| StatusEngine.RunSeverity | main.py:202-212 | after any sequence of records the severity is the starting severity plus the number of triggered records, capped at ALERT |
| StatusEngine.TwoTriggersFromCalm | main.py:202-212 | two triggered records take CALM to ALERT, and a third record of either kind leaves it there |
| StatusEngine.AlertAbsorbs | main.py:202-212 | ALERT stays ALERT under any sequence of records |
| StatusEngine.UntriggeredKeepsStatus | main.py:202 | a sequence of untriggered records never changes the status |
| Directory.FirstIndex | main.py:24 | the result is the index of the first document whose key matches, or none exactly when no document matches |
| Directory.GetUserId | main.py:22-32 | succeeds exactly when the first user with the presented name has the presented password, and then returns the id of that first user; otherwise 401 |
| Directory.GetUserIdUniqueNames | main.py:24-26 | with unique user names, login succeeds exactly when some user has that name and password |
| Directory.GetSensorId | main.py:35-45 | succeeds exactly when a sensor with the presented id has the presented password, and returns that id; otherwise 401 |
| AccessGuard.Guard | main.py:131-137 | 404 exactly when no sensor has the id; 403 exactly when the sensor exists and another user owns it; otherwise the index of the caller's sensor |
| AccessGuard.NotFoundBeforeForbidden | main.py:165-171 | a missing sensor gives 404 whoever the caller is |
| RecordLog.RecordsOf | main.py:141 | only records of the sensor, each as often as it occurs in the log |
| RecordLog.RecordsOfAppend | main.py:214-220 | appending a record to the log appends it to its sensor's records |
| RecordLog.Insert | main.py:142 | inserting into a newest-first sequence keeps it newest first and adds exactly the new record |
| RecordLog.NewestFirst | main.py:142 | the result is sorted by creation time, newest first, and is a permutation of the input |
| RecordLog.Limit | main.py:143 | the result is a prefix of the input, of the input's length or the limit's absolute value, no longer than a non-zero limit, and the whole input when the limit is 0 or not smaller than the input |
| RecordLog.RecentOwnRecords | main.py:140-144 | a detail query returns only the sensor's records, each taken from the log |
| RecordLog.RecentOrderAndCount | main.py:140-144 | a detail query's records are newest first, as many as the sensor has up to the limit (0 means all) |
| RecordLog.RecentIsNewest | main.py:140-144 | no record of the sensor that the query leaves out is newer than one it returns |
| RecordLog.NewestAppendedFirst | main.py:214-220 | a record appended with a time strictly newer than every logged one shows first in the next detail query, whatever the limit (0 included) |
| Queries.ReadCurrentUser | main.py:63-72 | 404 exactly when no user has the id; otherwise the profile of a user with that id |
| Queries.OwnedBy | main.py:92 | only sensors of the owner, each as often as it occurs in the store |
| Queries.ReadSensors | main.py:90-102 | always succeeds and returns one summary per owned sensor, in store order |
| Queries.ReadSensorsExactlyOwned | main.py:92-102 | a sensor is listed exactly when it is in the store and the caller owns it |
| Queries.NoSensorsEmptyList | main.py:94-95 | a user with no sensors gets an empty list, not an error |
| Queries.ReadSensor | main.py:127-156 | 404 exactly when the sensor is missing, 403 exactly when it exists and is not the caller's, otherwise its name, status, update time, location and recent records |
| Queries.ReadSensorRecords | main.py:139-156 | the detail's records are logged records of that sensor, newest first, as many as it has up to the limit |
| Queries.DefaultLimitShowsTen | main.py:128 | with the default limit of 10 a detail shows exactly 10 of the sensor's records, or all of them when it has fewer |
| Queries.GetMe | main.py:63 | 401 exactly when the credentials fail; the only other error is 404 |
| Queries.AuthenticatedUserHasProfile | main.py:65-68 | an authenticated user always finds their profile, with the name they logged in with |
| Queries.GetSensors | main.py:90 | 401 exactly when the credentials fail; otherwise the caller's list |
| Queries.GetSensor | main.py:127-129 | 401 exactly when the credentials fail, before any 404 or 403; otherwise the caller's detail |
| SensorStore.Observe | main.py:202-212 | the sensor's status becomes `Next` of the old one, `updated_at` becomes the current time exactly when the status moved, and no other field changes |
| SensorStore.Ingest | main.py:196-222 | 404 with no change exactly when the sensor is missing; otherwise exactly one record (sensor id, flag, current time) is appended, the sensor observes it, and no user and no other sensor changes |
| SensorStore.Reset | main.py:163-178 | 404 exactly when missing, 403 exactly when not owned, no change on either; otherwise the sensor is CALM with `updated_at` the current time and the records are untouched |
| SensorStore.PostRecord | main.py:191-195 | 401 with no change exactly when the sensor's credentials fail; otherwise ingestion for that sensor |
| SensorStore.PutReset | main.py:162-163 | 401 with no change exactly when the user's credentials fail; otherwise the reset on the caller's behalf |
| SensorStore.IngestKeepsConsistent | main.py:196-220 | ingestion keeps ids unique and every record attached to an existing sensor |
| SensorStore.ResetKeepsConsistent | main.py:173-176 | a reset keeps ids unique and every record attached to an existing sensor |
| SensorStore.UntriggeredChangesNoSensor | main.py:202 | an untriggered record changes no sensor, whatever its status |
| SensorStore.AlertIngestChangesNoSensor | main.py:202-212 | a record for an ALERT sensor changes neither its status nor `updated_at` |
| SensorStore.AuthenticatedIngestSucceeds | main.py:197-200 | after sensor authentication the 404 branch of ingestion is never taken |
| SensorStore.ResetIdempotent | main.py:173-176 | resetting twice equals resetting once at the later time, reply included |
| SensorStore.EscalationScenario | main.py:196-222 | from CALM: trigger gives WARNING stamped, trigger gives ALERT stamped, untriggered keeps ALERT and the stamp, reset gives CALM; three records appended |
| SensorStore.ScenarioDetail | main.py:140-144 | after those three records a detail query with limit 3 shows them newest first |
| SensorStore.Store.CreateSensorRecord | main.py:192-222 | the in-place handler performs `Ingest` on the store and keeps it consistent |
| SensorStore.Store.ResetSensorStatus | main.py:163-178 | the in-place handler performs `Reset` on the store and keeps it consistent |
| SensorStore.Store.HandleRecord | main.py:191-195 | the endpoint authenticates the sensor first and performs `PostRecord` |
| SensorStore.Store.HandleReset | main.py:162-163 | the endpoint authenticates the user first and performs `PutReset` |

## Left out

- The serial-port forwarder (`sensor.py`) is pure I/O: it reads lines from a device and posts them over HTTP. It has no state to verify.
- The document store client, the web framework's routing and dependency injection, response-model validation, HTTP Basic header parsing and environment configuration are not modelled. The collections are sequences.
- Malformed id strings, which the id parser rejects with an exception inside the library, are not modelled. Ids are already parsed.
- The wall clock is a `now` parameter. Ingestion reads the clock twice, once for the status stamp and once for the record. The model uses one reading for both.
- Concurrent requests, and the lost status updates they can cause, are not modelled: the code has no locking. Each request is one atomic step.
- Password hashing is left out. Passwords are compared for plain equality, as the code does.
- RecordLog.Limit: a limit whose absolute value is 2^63 or more cannot be sent to the store as a 64-bit integer, so the store client fails and the detail request ends with a server error. That failure is not modelled: `Limit` accepts any integer and returns the whole sorted list for such a limit.
- RecordLog.NewestFirst: records with equal creation times may come back in any order from the store. The model returns the later-logged one first.
- Status values other than the three names are not modelled. The store holds the status as a string, and the model uses an enumeration.
- User and sensor creation happens outside the system and is not modelled. `Store`'s constructor takes the initial users and sensors, and the record log always starts empty.
