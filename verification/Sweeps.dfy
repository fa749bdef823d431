/** Dispatches and sweeps in time: which rows a sweep leaves alone. */
module Sweeps {
  import opened Domain
  import opened Repository
  import opened Protocol
  import opened Orchestrator

  /** What a sweep hands out of the table it finds: its reset at `t1`, then its query at `t2`. */
  ghost predicate Swept(rows: map<Id, Row>, threshold: int, t1: int, limit: nat, t2: int, due: seq<Id>) {
    t1 <= t2 && Selects(ResetStuck(rows, threshold, t1), limit, t2, due)
  }

  /** A row in Pending is handed out once its retry time, less five seconds, has come, and not before. */
  lemma PendingSwept(rows: map<Id, Row>, id: Id, threshold: int, t1: int, limit: nat, t2: int, due: seq<Id>)
    requires Swept(rows, threshold, t1, limit, t2, due) && id in rows && rows[id].status == Pending
    ensures id in due ==> rows[id].nextRetryAt <= t2 + 5000
    ensures |due| < limit && rows[id].nextRetryAt <= t2 + 5000 ==> id in due
  {
    var reset := ResetStuck(rows, threshold, t1);
    assert reset[id] == rows[id];
    RipeSelection(reset, limit, t2, due);
  }

  /** A row in Processing is handed out once its last write is older than the threshold, and not before. */
  lemma ProcessingSwept(rows: map<Id, Row>, id: Id, threshold: int, t1: int, limit: nat, t2: int, due: seq<Id>)
    requires Swept(rows, threshold, t1, limit, t2, due) && id in rows && rows[id].status == Processing
    ensures id in due ==> rows[id].updatedAt + threshold < t1
    ensures |due| < limit && rows[id].updatedAt + threshold < t1 ==> id in due
  {
    var reset := ResetStuck(rows, threshold, t1);
    assert reset[id] == Unstuck(rows[id], threshold, t1);
    RipeSelection(reset, limit, t2, due);
  }

  /** A finished row is never handed out. */
  lemma FinishedSpared(rows: map<Id, Row>, id: Id, threshold: int, t1: int, limit: nat, t2: int, due: seq<Id>)
    requires Swept(rows, threshold, t1, limit, t2, due)
    requires id in rows && (rows[id].status == Sent || rows[id].status == PermanentFailure)
    ensures id !in due
  {
    var reset := ResetStuck(rows, threshold, t1);
    assert reset[id] == rows[id];
    RipeSelection(reset, limit, t2, due);
  }

  /** A retry that a dispatch has scheduled waits out its backoff, but for the five seconds of tolerance, also when
      its message or timer is lost and only the sweep is left to hand the row out: no sweep does so earlier, and
      each later one that does not reach its limit does. */
  lemma BackoffIsKept(rows: map<Id, Row>, id: Id, env: nat -> Outcome, threshold: int, t1: int, limit: nat, t2: int,
                      due: seq<Id>)
    requires (forall n :: env(n).fault == Fine) && id in rows && Active(rows[id])
    requires var f := RunDispatch(rows, id, Load, env);
      f.retryIn.Some? && Swept(f.rows, threshold, t1, limit, t2, due)
    ensures var f := RunDispatch(rows, id, Load, env);
      && (id in due ==> env(3).now + f.retryIn.value <= t2 + 5000)
      && (|due| < limit && env(3).now + f.retryIn.value <= t2 + 5000 ==> id in due)
  {
    DispatchSettles(rows, id, env);
    PendingSwept(RunDispatch(rows, id, Load, env).rows, id, threshold, t1, limit, t2, due);
  }

  /** A row that a dispatch has marked is left to it for the threshold, counted on the database's clock: no sweep
      hands it out earlier, and each later one that does not reach its limit does. */
  lemma MarkedIsLeftAlone(rows: map<Id, Row>, id: Id, snap: Row, o: Outcome, threshold: int, t1: int, limit: nat,
                          t2: int, due: seq<Id>)
    requires id in rows && o.fault != Unapplied
    requires Swept(NextRows(rows, id, Mark(snap), o), threshold, t1, limit, t2, due)
    ensures id in due ==> o.dbNow + threshold < t1
    ensures |due| < limit && o.dbNow + threshold < t1 ==> id in due
  {
    ProcessingSwept(NextRows(rows, id, Mark(snap), o), id, threshold, t1, limit, t2, due);
  }

  /** What a dispatch has finished no sweep hands out. */
  lemma OutcomeIsLeftAlone(rows: map<Id, Row>, id: Id, env: nat -> Outcome, threshold: int, t1: int, limit: nat,
                           t2: int, due: seq<Id>)
    requires (forall n :: env(n).fault == Fine) && id in rows && Active(rows[id])
    requires var f := RunDispatch(rows, id, Load, env);
      f.retryIn.None? && Swept(f.rows, threshold, t1, limit, t2, due)
    ensures id !in due
  {
    DispatchSettles(rows, id, env);
    FinishedSpared(RunDispatch(rows, id, Load, env).rows, id, threshold, t1, limit, t2, due);
  }
}
