/** The notification table: each query as a function on rows, and the adapter that runs them. */
module Repository {
  import opened Domain

  /** Milliseconds of clock skew `get_pending_for_retry` tolerates. */
  const SKEW_TOLERANCE: int := 5000

  /** The two statements `dispatch` writes a row with. `now` is the service's clock. */
  datatype Write =
    | SetStatus(status: Status, error: Option<string>, providerRef: Option<string>, now: int)
    | BumpRetry(nextRetryAt: int)

  function Written(row: Row, w: Write, dbNow: int): Row {
    match w
    case SetStatus(status, error, providerRef, now) =>
      row.(status := status, errorMessage := error, providerRef := providerRef,
           sentAt := if status == Sent then Some(now) else row.sentAt, updatedAt := dbNow)
    case BumpRetry(nextRetryAt) =>
      row.(retryCount := row.retryCount + 1, nextRetryAt := nextRetryAt, updatedAt := dbNow)
  }

  /** `UPDATE ... WHERE id = $1`: no row, no effect. */
  function Updated(rows: map<Id, Row>, id: Id, w: Write, dbNow: int): map<Id, Row> {
    if id in rows then rows[id := Written(rows[id], w, dbNow)] else rows
  }

  /** `INSERT` names some columns only; the others take their defaults. */
  function Inserted(request: Row): Row {
    request.(providerRef := None, retryCount := 0, errorMessage := None, sentAt := None, readAt := None)
  }

  ghost predicate KeyTaken(rows: map<Id, Row>, key: Option<string>) {
    key.Some? && exists id :: id in rows && rows[id].key == key
  }

  /** `INSERT ... ON CONFLICT (idempotency_key) DO UPDATE ... RETURNING`: the row that holds the key,
      untouched, or the new row. A null key never conflicts. */
  ghost predicate Creates(rows: map<Id, Row>, newId: Id, request: Row, rows': map<Id, Row>, saved: Id) {
    if KeyTaken(rows, request.key)
    then saved in rows && rows[saved].key == request.key && rows' == rows
    else saved == newId && rows' == rows[newId := Inserted(request)]
  }

  predicate Stuck(row: Row, threshold: int, dbNow: int) {
    row.status == Processing && row.updatedAt < dbNow - threshold
  }

  function Unstuck(row: Row, threshold: int, dbNow: int): Row {
    if Stuck(row, threshold, dbNow)
    then row.(status := Pending, nextRetryAt := dbNow, updatedAt := dbNow)
    else row
  }

  function ResetStuck(rows: map<Id, Row>, threshold: int, dbNow: int): map<Id, Row> {
    map id | id in rows :: Unstuck(rows[id], threshold, dbNow)
  }

  predicate Due(row: Row, dbNow: int) {
    row.status == Pending && row.nextRetryAt <= dbNow + SKEW_TOLERANCE
  }

  function DueIds(rows: map<Id, Row>, dbNow: int): set<Id> {
    set id | id in rows && Due(rows[id], dbNow)
  }

  predicate Distinct<T(==)>(s: seq<T>) {
    forall i, j :: 0 <= i < j < |s| ==> s[i] != s[j]
  }

  /** What `get_pending_for_retry` may answer: distinct due rows, in any order, as many as the limit
      lets through. */
  ghost predicate Selects(rows: map<Id, Row>, limit: nat, dbNow: int, due: seq<Id>) {
    var ids := DueIds(rows, dbNow);
    && Distinct(due)
    && (forall id :: id in due ==> id in ids)
    && |due| == if |ids| <= limit then |ids| else limit
  }

  /** A distinct selection that is as large as its source is all of it. */
  lemma {:induction false} FullSelection(due: seq<Id>, ids: set<Id>)
    requires Distinct(due) && |due| == |ids|
    requires forall id :: id in due ==> id in ids
    ensures forall id :: id in ids ==> id in due
    decreases |due|
  {
    if due != [] {
      var first := due[0];
      forall id | id in due[1..]
        ensures id in ids - {first}
      {
        var i :| 0 <= i < |due| - 1 && due[1..][i] == id;
        assert due[i + 1] == id;
      }
      FullSelection(due[1..], ids - {first});
      assert due == [first] + due[1..];
    }
  }

  /** Distinct Pending rows whose retry time, less five seconds, has come: all of them if the limit is not reached. */
  ghost predicate SelectsRipe(rows: map<Id, Row>, limit: nat, dbNow: int, due: seq<Id>) {
    && Distinct(due) && |due| <= limit
    && (forall id :: id in due ==> id in rows && rows[id].status == Pending && rows[id].nextRetryAt - 5000 <= dbNow)
    && (|due| < limit ==>
          forall id :: id in rows && rows[id].status == Pending && rows[id].nextRetryAt - 5000 <= dbNow ==> id in due)
  }

  lemma RipeSelection(rows: map<Id, Row>, limit: nat, dbNow: int, due: seq<Id>)
    requires Selects(rows, limit, dbNow, due)
    ensures SelectsRipe(rows, limit, dbNow, due)
  {
    var ids := DueIds(rows, dbNow);
    if |due| < limit {
      FullSelection(due, ids);
    }
    forall id | id in due || (id in rows && rows[id].status == Pending && rows[id].nextRetryAt - 5000 <= dbNow)
      ensures id in due ==> id in ids
      ensures id in rows && rows[id].status == Pending && rows[id].nextRetryAt - 5000 <= dbNow ==> id in ids
    {
    }
  }

  /** How a repository call ended: with or without an error, applied or not. */
  datatype Fault = Fine | Unapplied | Applied

  class NotificationRepository {
    var rows: map<Id, Row>

    constructor ()
      ensures rows == map[]
    {
      rows := map[];
    }

    method Create(newId: Id, request: Row, fault: Fault) returns (r: Result<Id, string>)
      modifies this
      ensures fault == Unapplied ==> rows == old(rows)
      ensures r.Ok? <==> fault == Fine
      ensures fault == Applied ==> exists saved :: Creates(old(rows), newId, request, rows, saved)
      ensures r.Ok? ==> Creates(old(rows), newId, request, rows, r.value)
    {
      if fault == Unapplied {
        return Err("database");
      }
      var saved := newId;
      var conflict := false;
      if request.key.Some? {
        var rest := rows.Keys;
        while rest != {} && !conflict
          invariant rest <= rows.Keys
          invariant conflict ==> saved in rows && rows[saved].key == request.key
          invariant !conflict ==> saved == newId
          invariant !conflict ==> forall id :: id in rows && id !in rest ==> rows[id].key != request.key
          decreases rest, !conflict
        {
          var id :| id in rest;
          rest := rest - {id};
          if rows[id].key == request.key {
            saved, conflict := id, true;
          }
        }
      }
      if !conflict {
        rows := rows[newId := Inserted(request)];
      }
      assert Creates(old(rows), newId, request, rows, saved);
      r := if fault == Fine then Ok(saved) else Err("database");
    }

    method GetById(id: Id, fault: Fault) returns (r: Result<Option<Row>, string>)
      ensures r == if fault == Fine then Ok(Lookup(rows, id)) else Err("database")
    {
      r := if fault == Fine then Ok(Lookup(rows, id)) else Err("database");
    }

    method Update(id: Id, w: Write, dbNow: int, fault: Fault) returns (ok: bool)
      modifies this
      ensures rows == if fault == Unapplied then old(rows) else Updated(old(rows), id, w, dbNow)
      ensures ok <==> fault == Fine
    {
      if fault != Unapplied && id in rows {
        rows := rows[id := Written(rows[id], w, dbNow)];
      }
      ok := fault == Fine;
    }

    method ResetStuckProcessing(threshold: int, dbNow: int, fault: Fault) returns (r: Result<nat, string>)
      modifies this
      ensures rows == if fault == Unapplied then old(rows) else ResetStuck(old(rows), threshold, dbNow)
      ensures r == if fault == Fine then Ok(|set id | id in old(rows) && Stuck(old(rows)[id], threshold, dbNow)|)
                   else Err("database")
      ensures rows.Keys == old(rows).Keys
      ensures fault != Unapplied ==>
        forall id :: id in rows ==>
          var row := old(rows)[id];
          rows[id] == if row.status == Processing && row.updatedAt + threshold < dbNow
                      then row.(status := Pending, nextRetryAt := dbNow, updatedAt := dbNow) else row
    {
      var count := |set id | id in rows && Stuck(rows[id], threshold, dbNow)|;
      if fault != Unapplied {
        rows := ResetStuck(rows, threshold, dbNow);
      }
      r := if fault == Fine then Ok(count) else Err("database");
    }

    method GetPendingForRetry(limit: nat, dbNow: int, fault: Fault) returns (r: Result<seq<Id>, string>)
      ensures r.Ok? <==> fault == Fine
      ensures r.Ok? ==> Selects(rows, limit, dbNow, r.value) && SelectsRipe(rows, limit, dbNow, r.value)
    {
      if fault != Fine {
        return Err("database");
      }
      var due := Pick(limit, dbNow);
      RipeSelection(rows, limit, dbNow, due);
      r := Ok(due);
    }

    /** Some of the due rows, as many as the limit lets through. */
    method Pick(limit: nat, dbNow: int) returns (due: seq<Id>)
      ensures Selects(rows, limit, dbNow, due)
    {
      ghost var ids := DueIds(rows, dbNow);
      due := [];
      var rest := rows.Keys;
      ghost var left := ids;
      while rest != {} && |due| < limit
        invariant rest <= rows.Keys && Distinct(due)
        invariant forall id :: id in due ==> id in ids && id !in rest
        invariant left <= ids && forall id :: id in left <==> id in ids && id in rest
        invariant |due| + |left| == |ids| && |due| <= limit
        decreases rest
      {
        var id :| id in rest;
        if Due(rows[id], dbNow) {
          due := due + [id];
          left := left - {id};
        }
        rest := rest - {id};
      }
      if rest == {} {
        assert left == {};
      }
    }
  }
}
