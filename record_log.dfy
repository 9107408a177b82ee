/**
 * The record log: an append-only sequence of trigger observations. A detail
 * query selects one sensor's records, sorts them by creation time, newest
 * first, and cuts the result to the requested limit.
 */
module RecordLog {
  import opened Documents

  /** The records of one sensor, in log order. */
  function RecordsOf(records: seq<Record>, id: Id): (r: seq<Record>)
    ensures forall k :: 0 <= k < |r| ==> r[k].sensorId == id
    ensures forall x :: multiset(r)[x] == if x.sensorId == id then multiset(records)[x] else 0
  {
    if records == [] then []
    else
      var last := records[|records| - 1];
      assert records == records[..|records| - 1] + [last];
      RecordsOf(records[..|records| - 1], id) + (if last.sensorId == id then [last] else [])
  }

  /** Appending a record to the log appends it to its sensor's records. */
  lemma RecordsOfAppend(records: seq<Record>, x: Record, id: Id)
    ensures RecordsOf(records + [x], id) == RecordsOf(records, id) + (if x.sensorId == id then [x] else [])
  {
  }

  /** Newest first: creation times never increase along the sequence. */
  ghost predicate NewestFirstOrder(s: seq<Record>)
  {
    forall i, j :: 0 <= i < j < |s| ==> s[i].createdAt >= s[j].createdAt
  }

  /** Prepending a record no older than every element keeps the order. */
  lemma PrependNewest(h: Record, s: seq<Record>)
    requires NewestFirstOrder(s)
    requires forall k :: 0 <= k < |s| ==> s[k].createdAt <= h.createdAt
    ensures NewestFirstOrder([h] + s)
  {
  }

  /** Places `x` before the first record of `t` that is not newer than it. */
  function Insert(x: Record, t: seq<Record>): (r: seq<Record>)
    requires NewestFirstOrder(t)
    ensures NewestFirstOrder(r)
    ensures multiset(r) == multiset(t) + multiset{x}
    ensures |r| == |t| + 1
  {
    if t == [] || t[0].createdAt <= x.createdAt then
      PrependNewest(x, t);
      [x] + t
    else
      var rest := Insert(x, t[1..]);
      assert t == [t[0]] + t[1..];
      assert forall k :: 0 <= k < |rest| ==> rest[k].createdAt <= t[0].createdAt by {
        forall k | 0 <= k < |rest| ensures rest[k].createdAt <= t[0].createdAt {
          assert rest[k] in multiset(rest);
          assert rest[k] == x || rest[k] in t[1..];
        }
      }
      PrependNewest(t[0], rest);
      [t[0]] + rest
  }

  /** Sorts a sequence of records by creation time, newest first. */
  function NewestFirst(s: seq<Record>): (r: seq<Record>)
    ensures NewestFirstOrder(r)
    ensures multiset(r) == multiset(s)
    ensures |r| == |s|
  {
    if s == [] then []
    else
      assert s == s[..|s| - 1] + [s[|s| - 1]];
      Insert(s[|s| - 1], NewestFirst(s[..|s| - 1]))
  }

  lemma NewestFirstAppend(s: seq<Record>, x: Record)
    ensures NewestFirst(s + [x]) == Insert(x, NewestFirst(s))
  {
  }

  function Abs(n: int): nat
  {
    if n < 0 then -n else n
  }

  /**
   * The store's cursor limit: 0 means no limit, and a negative limit returns
   * as many records as its absolute value.
   */
  function Limit(s: seq<Record>, limit: int): (r: seq<Record>)
    ensures |r| <= |s| && r == s[..|r|]
    ensures limit != 0 ==> |r| <= Abs(limit)
    ensures |r| == |s| || |r| == Abs(limit)
    ensures limit == 0 || |s| <= Abs(limit) ==> r == s
  {
    if limit == 0 || |s| <= Abs(limit) then s else s[..Abs(limit)]
  }

  /** The records a detail query shows for a sensor. */
  function Recent(records: seq<Record>, id: Id, limit: int): seq<Record>
  {
    Limit(NewestFirst(RecordsOf(records, id)), limit)
  }

  /** A detail query returns only the sensor's own records, each one logged. */
  lemma RecentOwnRecords(records: seq<Record>, id: Id, limit: int)
    ensures forall k :: 0 <= k < |Recent(records, id, limit)| ==> Recent(records, id, limit)[k].sensorId == id
    ensures multiset(Recent(records, id, limit)) <= multiset(records)
  {
    var mine := RecordsOf(records, id);
    var sorted := NewestFirst(mine);
    var r := Recent(records, id, limit);
    forall k | 0 <= k < |r| ensures r[k].sensorId == id {
      assert r[k] == sorted[k];
      assert r[k] in multiset(mine);
    }
    assert multiset(r) <= multiset(sorted) by {
      assert sorted == r + sorted[|r|..];
    }
  }

  /**
   * A detail query returns its records newest first, as many as the sensor has
   * up to the limit (no limit when it is 0).
   */
  lemma RecentOrderAndCount(records: seq<Record>, id: Id, limit: int)
    ensures NewestFirstOrder(Recent(records, id, limit))
    ensures var n := |RecordsOf(records, id)|;
      |Recent(records, id, limit)| == if limit == 0 || n <= Abs(limit) then n else Abs(limit)
  {
  }

  /** No record of the sensor that a detail query leaves out is newer than one it returns. */
  lemma RecentIsNewest(records: seq<Record>, id: Id, limit: int, y: Record)
    requires y in records && y.sensorId == id
    ensures y !in Recent(records, id, limit) ==>
      forall k :: 0 <= k < |Recent(records, id, limit)| ==> y.createdAt <= Recent(records, id, limit)[k].createdAt
  {
    if y in Recent(records, id, limit) {
      return;
    }
    var mine := RecordsOf(records, id);
    var sorted := NewestFirst(mine);
    var r := Recent(records, id, limit);
    assert r == sorted[..|r|];
    assert y in multiset(records);
    assert y in multiset(sorted);
    var m :| 0 <= m < |sorted| && sorted[m] == y;
    assert m >= |r|;
  }

  /**
   * A record appended with a creation time strictly newer than every logged
   * one is the first one a detail query returns (no tie to break).
   */
  lemma NewestAppendedFirst(records: seq<Record>, x: Record, limit: int)
    requires forall k :: 0 <= k < |records| ==> records[k].createdAt < x.createdAt
    ensures Recent(records + [x], x.sensorId, limit) != []
    ensures Recent(records + [x], x.sensorId, limit)[0] == x
  {
  }
}
