/** Whoever still has to move a row: no interleaving loses the last such carrier, a crash or a failed
    repository call can, and one recovery sweep makes up for it. */
module Carriers {
  import opened Domain
  import opened Repository
  import opened Protocol

  predicate Carries(proc: Proc, id: Id) {
    match proc
    case Timer(i) => i == id
    case Caller(i) => i == id
    case Sweeper(due) => id in due
    case Dispatching(i, _, pc) => i == id && !pc.Done?
  }

  ghost predicate CarriedBy(s: State, id: Id, p: Pid) {
    p in s.procs && Carries(s.procs[p], id)
  }

  ghost predicate Carried(s: State, id: Id) {
    id in s.dispatchQ || id in s.retryQ || exists p :: CarriedBy(s, id, p)
  }

  ghost predicate Unfinished(s: State, id: Id) {
    id in s.rows && Active(s.rows[id])
  }

  /** The row is finished, or something still moves it. */
  ghost predicate Kept(s: State, id: Id) {
    Unfinished(s, id) ==> Carried(s, id)
  }

  ghost predicate NoOrphan(s: State) {
    forall id :: Kept(s, id)
  }

  /** Nothing breaks: no crash and no failing repository call. */
  predicate Smooth(e: Event) {
    match e
    case Queue(_, _, _, fault, _) => fault == Fine
    case Advance(_, o, _) => o.fault == Fine
    case Crash(_) => false
    case _ => true
  }

  /** A row no statement of this step writes keeps its carriers, as long as the step drops none. */
  lemma StepKeepsCarrier(s: State, e: Event, s': State, id: Id)
    requires Kept(s, id) && Step(s, e, s') && Smooth(e) && Unfinished(s', id)
    ensures Carried(s', id)
  {
    if e.Queue? && id !in s.rows {
      assert CarriedBy(s', id, e.q);
    } else {
      assert Unfinished(s, id) || e.Advance? by {
        if e.Reset? { assert s'.rows[id] == Unstuck(s.rows[id], e.threshold, e.dbNow); }
      }
      if e.Advance? {
        AdvanceKeepsCarrier(s, e, s', id);
      } else if id in s.dispatchQ || id in s.retryQ {
        QueuedStaysCarried(s, e, s', id);
      } else {
        var p :| CarriedBy(s, id, p);
        ProcessStaysCarrier(s, e, s', id, p);
      }
    }
  }

  lemma QueuedStaysCarried(s: State, e: Event, s': State, id: Id)
    requires Step(s, e, s') && Smooth(e) && !e.Advance?
    requires id in s.dispatchQ || id in s.retryQ
    ensures Carried(s', id)
  {
    if e.Deliver? && e.id == id {
      assert CarriedBy(s', id, e.q);
    }
  }

  lemma ProcessStaysCarrier(s: State, e: Event, s': State, id: Id, p: Pid)
    requires Step(s, e, s') && Smooth(e) && !e.Advance?
    requires CarriedBy(s, id, p)
    ensures Carried(s', id)
  {
    if e.Trigger? && e.p == p && e.published {
      assert id in s'.dispatchQ;
    } else if e.SweepTrigger? && e.p == p {
      var due := s.procs[p].due;
      assert due == [due[0]] + due[1..];
      if id in due[1..] {
        assert CarriedBy(s', id, p);
      } else if e.published {
        assert id in s'.dispatchQ;
      } else {
        assert CarriedBy(s', id, e.q);
      }
    } else {
      assert CarriedBy(s', id, p);
    }
  }

  /** One dispatch step: the dispatch goes on as the carrier, hands over to the retry queue or a timer,
      or has just seen or made its row final. */
  lemma AdvanceKeepsCarrier(s: State, e: Event, s': State, id: Id)
    requires Kept(s, id) && Step(s, e, s') && Smooth(e) && e.Advance? && Unfinished(s', id)
    ensures Carried(s', id)
  {
    var d := s.procs[e.p];
    if d.id == id {
      if !s'.procs[e.p].pc.Done? {
        assert CarriedBy(s', id, e.p);
      } else if d.pc.Publish? {
        if e.o.published {
          assert id in s'.retryQ;
        } else {
          assert CarriedBy(s', id, e.q);
        }
      } else {
        assert false;
      }
    } else {
      assert Unfinished(s, id);
      if id !in s.dispatchQ && id !in s.retryQ {
        var p :| CarriedBy(s, id, p);
        assert CarriedBy(s', id, p);
      }
    }
  }

  lemma StepKeepsNoOrphan(s: State, e: Event, s': State)
    requires NoOrphan(s) && Step(s, e, s') && Smooth(e)
    ensures NoOrphan(s')
  {
    forall id
      ensures Kept(s', id)
    {
      assert Kept(s, id);
      if Unfinished(s', id) {
        StepKeepsCarrier(s, e, s', id);
      }
    }
  }

  /** Under any interleaving without crash and repository error, every unfinished row keeps a carrier. */
  lemma {:induction false} NoOrphanEver(states: seq<State>, events: seq<Event>, n: nat)
    requires Execution(states, events) && NoOrphan(states[0])
    requires forall e :: e in events ==> Smooth(e)
    requires n < |states|
    ensures NoOrphan(states[n])
    decreases n
  {
    if n > 0 {
      NoOrphanEver(states, events, n - 1);
      StepKeepsNoOrphan(states[n - 1], events[n - 1], states[n]);
    }
  }

  // ----- What a failing repository call costs -----

  ghost predicate OtherCarrier(s: State, id: Id, p: Pid) {
    id in s.dispatchQ || id in s.retryQ || exists q :: q != p && CarriedBy(s, id, q)
  }

  /** A carrier of another row goes on carrying it through a step that only moves dispatch `p`. */
  lemma OthersStayCarried(s: State, e: Event, s': State, id: Id)
    requires Step(s, e, s') && e.Advance? && s.procs[e.p].id != id && Carried(s, id)
    ensures Carried(s', id)
  {
    if id !in s.dispatchQ && id !in s.retryQ {
      var q :| CarriedBy(s, id, q);
      assert CarriedBy(s', id, q);
    }
  }

  /** A dispatch whose repository call fails is dropped, since the nack does not requeue; the statement may or
      may not have taken effect. Some row is orphaned exactly when the dispatch's own row is left unfinished
      and nothing else carries it. */
  lemma RepositoryErrorOrphansExactly(s: State, e: Event, s': State)
    requires NoOrphan(s) && Step(s, e, s') && e.Advance? && e.o.fault != Fine
    requires s.procs[e.p].pc.Load? || Statement(s.procs[e.p].pc, e.o.now).Some?
    ensures NoOrphan(s')
       <==> !Unfinished(s', s.procs[e.p].id) || OtherCarrier(s, s.procs[e.p].id, e.p)
  {
    var id := s.procs[e.p].id;
    assert s'.procs[e.p].pc == Done(false);
    if OtherCarrier(s, id, e.p) && id !in s.dispatchQ && id !in s.retryQ {
      var q :| q != e.p && CarriedBy(s, id, q);
      assert CarriedBy(s', id, q);
    }
    if Carried(s', id) && id !in s.dispatchQ && id !in s.retryQ {
      var q :| CarriedBy(s', id, q);
      assert q != e.p && CarriedBy(s, id, q);
    }
    assert NoOrphan(s') ==> Kept(s', id);
    forall i | i != id
      ensures Kept(s', i)
    {
      if Unfinished(s', i) {
        assert Kept(s, i);
        OthersStayCarried(s, e, s', i);
      }
    }
  }

  /** A `queue_notification` call whose insert takes effect behind an error leaves a row nobody triggers. */
  lemma QueueErrorOrphansExactly(s: State, e: Event, s': State)
    requires NoOrphan(s) && Step(s, e, s') && e.Queue? && e.fault != Fine
    requires !Carried(s, e.newId)
    ensures NoOrphan(s') <==> e.fault == Unapplied || KeyTaken(s.rows, e.request.key)
  {
    if s'.rows == s.rows {
      forall i
        ensures Kept(s', i)
      {
        assert Kept(s, i);
        assert forall p :: CarriedBy(s, i, p) <==> CarriedBy(s', i, p);
      }
    } else {
      assert Unfinished(s', e.newId);
      assert forall p :: CarriedBy(s, e.newId, p) <==> CarriedBy(s', e.newId, p);
      assert !Kept(s', e.newId);
    }
  }

  /** Something that moves the row survives when the processes in `killed` die: a message, a live carrier, or
      a delivery the broker takes back. */
  ghost predicate Survives(s: State, killed: set<Pid>, id: Id) {
    || id in s.dispatchQ || id in s.retryQ
    || (exists p :: p !in killed && CarriedBy(s, id, p))
    || OwnedDeliveries(s.procs, killed, id) != {}
  }

  /** A crash orphans exactly the unfinished rows whose carriers were all in the dead processes' memory. */
  lemma CrashOrphansExactly(s: State, e: Event, s': State, id: Id)
    requires Step(s, e, s') && e.Crash? && Unfinished(s, id)
    ensures Carried(s', id) <==> Survives(s, e.killed, id)
  {
    var back := OwnedDeliveries(s.procs, e.killed, id);
    assert |back| == 0 <==> back == {};
    if p :| p !in e.killed && CarriedBy(s, id, p) {
      assert CarriedBy(s', id, p);
    }
    if p :| CarriedBy(s', id, p) {
      assert p !in e.killed && CarriedBy(s, id, p);
    }
  }

  // ----- Recovery -----

  /** A sweep with its reset at `t1` and its query at `t2` picks the row up. */
  predicate SweepDue(row: Row, threshold: int, t1: int, t2: int) {
    || (row.status == Processing && row.updatedAt + threshold < t1)
    || (row.status == Pending && row.nextRetryAt - 5000 <= t2)
  }

  /** An untouched unfinished row becomes due for the sweep, and stays so. */
  lemma UnfinishedBecomesDue(row: Row, threshold: int, t1: int, t2: int)
    requires Active(row)
    requires t1 > row.updatedAt + threshold && t2 >= row.nextRetryAt - 5000
    ensures SweepDue(row, threshold, t1, t2)
  {
  }

  /** Rows nobody carries are out of every dispatch's reach: a smooth step leaves their status and time. */
  lemma UncarriedStands(s: State, e: Event, s': State, id: Id)
    requires Step(s, e, s') && Smooth(e) && Unfinished(s, id) && !Carried(s, id) && s.rows[id].status == Pending
    ensures id in s'.rows && s'.rows[id].status == Pending && s'.rows[id].nextRetryAt == s.rows[id].nextRetryAt
  {
    if e.Advance? {
      assert CarriedBy(s, s.procs[e.p].id, e.p);
    } else if e.Reset? {
      assert s'.rows[id] == Unstuck(s.rows[id], e.threshold, e.dbNow);
    }
  }

  /** The row has a carrier, or the query at `t` will find it. */
  ghost predicate Awaits(s: State, id: Id, t: int) {
    Unfinished(s, id) ==> Carried(s, id) || Due(s.rows[id], t)
  }

  lemma StepKeepsAwaiting(s: State, e: Event, s': State, id: Id, t: int)
    requires Step(s, e, s') && Smooth(e) && Awaits(s, id, t)
    ensures Awaits(s', id, t)
  {
    if Kept(s, id) {
      if Unfinished(s', id) {
        StepKeepsCarrier(s, e, s', id);
      }
    } else {
      UncarriedStands(s, e, s', id);
    }
  }

  /** The reset hands the stuck rows over to the query. */
  lemma ResetHandsOver(s: State, e: Event, s': State, id: Id, t: int)
    requires Step(s, e, s') && e.Reset? && e.dbNow <= t
    requires Unfinished(s, id) && !Carried(s, id) ==> SweepDue(s.rows[id], e.threshold, e.dbNow, t)
    ensures Awaits(s', id, t)
  {
    if Unfinished(s', id) {
      assert s'.rows[id] == Unstuck(s.rows[id], e.threshold, e.dbNow);
      if Carried(s, id) {
        assert forall p :: CarriedBy(s, id, p) <==> CarriedBy(s', id, p);
      }
    }
  }

  /** The two queries of one sweep, at `k` and `m`, with any other steps of the service in between. */
  ghost predicate Sweep(states: seq<State>, events: seq<Event>, k: nat, m: nat) {
    && Execution(states, events) && k < m < |events|
    && events[k].Reset? && events[m].Fetch? && events[k].dbNow <= events[m].dbNow
    && |DueIds(states[m].rows, events[m].dbNow)| <= events[m].limit
  }

  /** A row that nobody moves is due for this sweep. */
  ghost predicate OrphansDue(s: State, reset: Event, fetch: Event)
    requires reset.Reset? && fetch.Fetch?
  {
    forall id :: Unfinished(s, id) && !Carried(s, id) ==>
      SweepDue(s.rows[id], reset.threshold, reset.dbNow, fetch.dbNow)
  }

  lemma {:induction false} AwaitingAlong(states: seq<State>, events: seq<Event>, k: nat, m: nat, n: nat, id: Id)
    requires Sweep(states, events, k, m) && k < n <= m
    requires OrphansDue(states[k], events[k], events[m])
    requires forall i :: k < i < m ==> Smooth(events[i])
    ensures Awaits(states[n], id, events[m].dbNow)
    decreases n
  {
    assert Step(states[n - 1], events[n - 1], states[n]);
    if n == k + 1 {
      ResetHandsOver(states[k], events[k], states[n], id, events[m].dbNow);
    } else {
      AwaitingAlong(states, events, k, m, n - 1, id);
      StepKeepsAwaiting(states[n - 1], events[n - 1], states[n], id, events[m].dbNow);
    }
  }

  /** From any table at all, whichever step a crash left it at and whatever runs beside the sweep: it hands out,
      each once, exactly the rows that are due at its query. For every row the other steps leave alone, these
      are the rows that were due for the sweep when it began. */
  lemma SweepSelectsExactly(states: seq<State>, events: seq<Event>, k: nat, m: nat)
    requires Sweep(states, events, k, m)
    ensures Distinct(events[m].due)
    ensures forall id :: id in events[m].due
                    <==> id in states[m].rows && states[m].rows[id].status == Pending
                         && states[m].rows[id].nextRetryAt - 5000 <= events[m].dbNow
    ensures forall id :: id in states[k].rows && Lookup(states[m].rows, id) == Lookup(states[k + 1].rows, id) ==>
              (id in events[m].due
               <==> SweepDue(states[k].rows[id], events[k].threshold, events[k].dbNow, events[m].dbNow))
  {
    var reset, fetch := events[k], events[m];
    assert Step(states[m], fetch, states[m + 1]) && Step(states[k], reset, states[k + 1]);
    FullSelection(fetch.due, DueIds(states[m].rows, fetch.dbNow));
    forall id | id in states[k].rows
      ensures id in states[k + 1].rows
      ensures Due(states[k + 1].rows[id], fetch.dbNow)
         <==> SweepDue(states[k].rows[id], reset.threshold, reset.dbNow, fetch.dbNow)
    {
      assert states[k + 1].rows[id] == Unstuck(states[k].rows[id], reset.threshold, reset.dbNow);
    }
  }

  /** Whatever a crash or failed calls left behind: once the rows that nobody moves are due, one sweep gives
      every unfinished row a carrier, with deliveries and calls going on beside it. */
  lemma SweepRestoresCarriers(states: seq<State>, events: seq<Event>, k: nat, m: nat)
    requires Sweep(states, events, k, m)
    requires OrphansDue(states[k], events[k], events[m])
    requires forall i :: k < i < m ==> Smooth(events[i])
    ensures NoOrphan(states[m + 1])
  {
    var s, fetch, s' := states[m], events[m], states[m + 1];
    assert Step(s, fetch, s');
    FullSelection(fetch.due, DueIds(s.rows, fetch.dbNow));
    forall id
      ensures Kept(s', id)
    {
      AwaitingAlong(states, events, k, m, m, id);
      if Unfinished(s', id) {
        if Carried(s, id) {
          StepKeepsCarrier(s, fetch, s', id);
        } else {
          assert id in DueIds(s.rows, fetch.dbNow);
          assert CarriedBy(s', id, fetch.q);
        }
      }
    }
  }

  /** The life after recovery: from the sweep on no row is orphaned while nothing breaks again. What happened
      before the sweep, crashes and failing calls included, does not matter. */
  lemma RecoveredForGood(states: seq<State>, events: seq<Event>, k: nat, m: nat, n: nat)
    requires Sweep(states, events, k, m) && m < n < |states|
    requires OrphansDue(states[k], events[k], events[m])
    requires forall i :: k < i < n ==> Smooth(events[i])
    ensures NoOrphan(states[n])
  {
    SweepRestoresCarriers(states, events, k, m);
    NoOrphanEver(states[m + 1..n + 1], events[m + 1..n], n - m - 1);
  }
}
