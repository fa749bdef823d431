/** Concrete runs of the delivery protocol, as witnesses of what it does not promise. */
module Runs {
  import opened Domain
  import opened Backoff
  import opened Repository
  import opened Protocol
  import opened Orchestrator
  import Carriers
  import Retries

  datatype Trace = Trace(states: seq<State>, events: seq<Event>)

  ghost predicate Good(t: Trace) {
    Run(t.states, t.events)
  }

  ghost function End(t: Trace): State
    requires Good(t)
  {
    t.states[|t.events|]
  }

  /** No process of the run has a number of `width` or above, so no more than `width` ever run together. */
  ghost predicate Slim(t: Trace, width: nat) {
    forall i :: 0 <= i < |t.states| ==> Below(t.states[i], width)
  }

  ghost predicate Below(s: State, width: nat) {
    forall p :: p in s.procs ==> p < width
  }

  // ----- Building runs -----

  lemma Extend(t: Trace, e: Event, s': State) returns (t': Trace)
    requires Good(t) && Step(End(t), e, s')
    ensures Good(t') && End(t') == s'
    ensures forall w :: Slim(t, w) && Below(s', w) ==> Slim(t', w)
    ensures |t'.events| == |t.events| + 1 && t'.states[|t.events|] == End(t)
  {
    t' := Trace(t.states + [s'], t.events + [e]);
    forall i | 0 <= i < |t'.events|
      ensures Step(t'.states[i], t'.events[i], t'.states[i + 1])
    {
    }
  }

  lemma Append(t: Trace, more: seq<State>, later: seq<Event>) returns (t': Trace)
    requires Good(t) && Execution(more, later) && more[0] == End(t)
    ensures Good(t') && End(t') == more[|later|]
    ensures forall w :: Slim(t, w) && (forall i :: 0 <= i < |more| ==> Below(more[i], w)) ==> Slim(t', w)
  {
    t' := Trace(t.states + more[1..], t.events + later);
    forall i | 0 <= i < |t'.events|
      ensures Step(t'.states[i], t'.events[i], t'.states[i + 1])
    {
      if i >= |t.events| {
        var j := i - |t.events|;
        assert t'.states[i] == more[j] && t'.states[i + 1] == more[j + 1] && t'.events[i] == later[j];
      }
    }
  }

  /** One step of dispatch `p`, with nothing that would start another process. */
  lemma Go(t: Trace, p: Pid, o: Outcome) returns (t': Trace)
    requires Good(t) && p in End(t).procs && End(t).procs[p].Dispatching? && !End(t).procs[p].pc.Done?
    requires ProviderContract(o) && o.published
    ensures Good(t') && End(t') == Advanced(End(t), p, o, 0)
    ensures forall w :: Slim(t, w) ==> Slim(t', w)
    ensures |t'.events| == |t.events| + 1 && t'.states[|t.events|] == End(t)
  {
    var q := FreshPid(End(t).procs);
    AdvancedIsAStep(End(t), p, o, q);
    t' := Extend(t, Advance(p, o, q), Advanced(End(t), p, o, q));
  }

  // ----- A notification on the dispatch queue -----

  const REQUEST := Row(None, Email, Pending, "to", "t", map[], None, 0, 0, None, None, 0, 0, None, None)

  const FINE := Outcome(Fine, Ok("text"), Ok("ref"), {}, true, 0, 0)

  const DOWN := Outcome(Fine, Ok("text"), Err("down"), {}, true, 0, 0)

  /** One row, on the dispatch queue, and nothing else under way. */
  predicate Waiting(s: State, row: Row) {
    s.rows == map[0 := row] && s.dispatchQ == multiset{0} && s.retryQ == multiset{} && s.procs == map[]
  }

  lemma Queued() returns (t: Trace)
    ensures Good(t) && Waiting(End(t), REQUEST) && Slim(t, 1) && End(t).book == EMPTY_BOOK
  {
    var rows: map<Id, Row> := map[0 := REQUEST];
    assert INITIAL.rows[0 := Inserted(REQUEST)] == rows;
    var s1 := INITIAL.(rows := rows, procs := map[0 := Caller(0)], calls := map[0 := Call(None, Some(0), false)]);
    assert INITIAL.procs[0 := Caller(0)] == s1.procs && INITIAL.calls[0 := Call(None, Some(0), false)] == s1.calls;
    t := Trace([INITIAL], []);
    t := Extend(t, Queue(0, REQUEST, 0, Fine, 0), s1);
    var s2 := s1.(procs := s1.procs - {0}, calls := s1.calls[0 := Call(None, Some(0), true)], dispatchQ := multiset{0});
    assert s2.procs == map[];
    t := Extend(t, Trigger(0, true), s2);
  }

  lemma Delivered(t: Trace, row: Row) returns (t': Trace)
    requires Good(t) && Waiting(End(t), row)
    ensures Good(t') && (Slim(t, 1) ==> Slim(t', 1))
    ensures var s := End(t');
      && s.rows == map[0 := row] && s.dispatchQ == multiset{} && s.retryQ == multiset{}
      && s.procs == map[0 := Dispatching(0, Delivery, Load)] && s.book == End(t).book
  {
    var s := End(t);
    var s' := s.(dispatchQ := s.dispatchQ - multiset{0}, procs := s.procs[0 := Dispatching(0, Delivery, Load)]);
    t' := Extend(t, Deliver(0, 0), s');
  }

  function Failing(n: nat): Outcome {
    DOWN
  }

  /** A failed attempt: the retry message expires, and the row waits again with one retry counted more. */
  lemma Round(t: Trace, row: Row) returns (t': Trace, row': Row)
    requires Good(t) && Waiting(End(t), row) && row.status == Pending && 0 <= row.retryCount < MAX_RETRIES
    ensures Good(t') && Waiting(End(t'), row') && (Slim(t, 1) ==> Slim(t', 1))
    ensures row'.status == Pending && row'.retryCount == row.retryCount + 1
  {
    var t1 := Delivered(t, row);
    var s1 := End(t1);
    var states, events := DispatchIsAnExecution(s1, 0, Failing);
    DispatchSettles(s1.rows, 0, Failing);
    var t2 := Append(t1, states, events);
    var s2 := End(t2);
    row' := s2.rows[0];
    assert s2.rows == map[0 := row'];
    var s3 := s2.(procs := s2.procs - {0});
    assert s3.procs == map[];
    var t3 := Extend(t2, Finish(0), s3);
    var s4 := s3.(retryQ := s3.retryQ - multiset{0}, dispatchQ := s3.dispatchQ + multiset{0});
    t' := Extend(t3, Expire(0), s4);
  }

  lemma {:induction false} Retried(k: nat) returns (t: Trace, row: Row)
    requires k <= MAX_RETRIES
    ensures Good(t) && Waiting(End(t), row) && row.status == Pending && row.retryCount == k && Slim(t, 1)
    decreases k
  {
    if k == 0 {
      t := Queued();
      row := REQUEST;
    } else {
      t, row := Retried(k - 1);
      t, row := Round(t, row);
    }
  }

  // ----- Dispatches of one row that overlap -----

  /** The row waits, and `n` dispatches of redelivered messages have loaded it. */
  ghost predicate Crowded(s: State, row: Row, n: nat) {
    && s.rows == map[0 := row] && s.dispatchQ == multiset{0} && s.retryQ == multiset{}
    && (forall p: Pid :: p in s.procs <==> p < n)
    && (forall p :: p in s.procs ==> s.procs[p] == Dispatching(0, Spawned, Mark(row)))
  }

  /** One more: the broker redelivers on a new channel while the dispatch goes on. */
  lemma OneMore(t: Trace, row: Row, n: nat) returns (t': Trace)
    requires Good(t) && Crowded(End(t), row, n) && Active(row)
    ensures Good(t') && Crowded(End(t'), row, n + 1)
    ensures forall w :: Slim(t, w) && n < w ==> Slim(t', w)
  {
    var s := End(t);
    var s1 := s.(dispatchQ := s.dispatchQ - multiset{0}, procs := s.procs[n := Dispatching(0, Delivery, Load)]);
    var t1 := Extend(t, Deliver(0, n), s1);
    var s2 := s1.(procs := s1.procs[n := Dispatching(0, Spawned, Load)], dispatchQ := s1.dispatchQ + multiset{0});
    var t2 := Extend(t1, Detach(n), s2);
    t' := Go(t2, n, FINE);
    assert End(t').procs == s2.procs[n := Dispatching(0, Spawned, Mark(row))];
    forall p | p in End(t').procs
      ensures End(t').procs[p] == Dispatching(0, Spawned, Mark(row))
    {
      assert p != n ==> p in s.procs;
    }
  }

  lemma {:induction false} Crowd(t: Trace, row: Row, n: nat) returns (t': Trace)
    requires Good(t) && Waiting(End(t), row) && Active(row)
    ensures Good(t') && Crowded(End(t'), row, n)
    ensures forall w :: Slim(t, w) && n <= w ==> Slim(t', w)
    decreases n
  {
    if n == 0 {
      t' := t;
    } else {
      t' := Crowd(t, row, n - 1);
      t' := OneMore(t', row, n - 1);
    }
  }

  predicate Stands(s: State, status: Status, a: Pc, b: Pc) {
    && 0 in s.rows && s.rows[0].status == status
    && 0 in s.procs && 1 in s.procs
    && s.procs[0] == Dispatching(0, Spawned, a) && s.procs[1] == Dispatching(0, Spawned, b)
  }

  lemma Step0(t: Trace, o: Outcome, status: Status, a: Pc, b: Pc, status': Status, a': Pc) returns (t': Trace)
    requires Good(t) && Stands(End(t), status, a, b) && !a.Done? && o in {FINE, DOWN}
    requires a' == NextPc(Some(End(t).rows[0]), a, o)
    requires status' == match Statement(a, o.now)
                        case Some(SetStatus(written, _, _, _)) => written
                        case _ => status
    ensures Good(t') && Stands(End(t'), status', a', b)
    ensures |t'.events| == |t.events| + 1 && t'.states[|t.events|] == End(t)
  {
    t' := Go(t, 0, o);
  }

  lemma Step1(t: Trace, o: Outcome, status: Status, a: Pc, b: Pc, status': Status, b': Pc) returns (t': Trace)
    requires Good(t) && Stands(End(t), status, a, b) && !b.Done? && o in {FINE, DOWN}
    requires b' == NextPc(Some(End(t).rows[0]), b, o)
    requires status' == match Statement(b, o.now)
                        case Some(SetStatus(written, _, _, _)) => written
                        case _ => status
    ensures Good(t') && Stands(End(t'), status', a, b')
    ensures |t'.events| == |t.events| + 1 && t'.states[|t.events|] == End(t)
  {
    t' := Go(t, 1, o);
  }

  /** What the last step of a run did to the row's status. */
  ghost predicate Turned(t: Trace, from: Status, to: Status)
    requires Good(t)
  {
    var n := |t.events|;
    && n > 0 && 0 in t.states[n - 1].rows && 0 in t.states[n].rows
    && t.states[n - 1].rows[0].status == from && t.states[n].rows[0].status == to
  }

  /** "Never left" does need dispatches that do not overlap: here no call fails and nothing crashes, the broker
      redelivers one message, and the row goes from Sent back to Processing. */
  lemma SentReopened() returns (t: Trace)
    ensures Good(t) && Turned(t, Sent, Processing)
  {
    t := Queued();
    t := Crowd(t, REQUEST, 2);
    var mark := Mark(REQUEST);
    assert Stands(End(t), Pending, mark, mark);
    t := Step0(t, FINE, Pending, mark, mark, Processing, Sending(REQUEST));
    t := Step0(t, FINE, Processing, Sending(REQUEST), mark, Processing, WriteSent("ref"));
    t := Step0(t, FINE, Processing, WriteSent("ref"), mark, Sent, Done(true));
    t := Step1(t, FINE, Sent, Done(true), mark, Processing, Sending(REQUEST));
  }

  /** Two dispatches of the last attempt, one about to write its success and one its failure. */
  lemma Contradicting() returns (t: Trace)
    ensures Good(t) && Stands(End(t), Processing, WriteSent("ref"), WriteFailed("down", true))
  {
    var row;
    t, row := Retried(MAX_RETRIES);
    t := Crowd(t, row, 2);
    var mark, sending := Mark(row), Sending(row);
    assert Stands(End(t), Pending, mark, mark);
    t := Step0(t, FINE, Pending, mark, mark, Processing, sending);
    t := Step1(t, FINE, Processing, sending, mark, Processing, sending);
    t := Step0(t, FINE, Processing, sending, sending, Processing, WriteSent("ref"));
    t := Step1(t, DOWN, Processing, WriteSent("ref"), sending, Processing, WriteFailed("down", true));
  }

  /** A notification that was sent ends as PermanentFailure, */
  lemma SentFails() returns (t: Trace)
    ensures Good(t) && Turned(t, Sent, PermanentFailure)
  {
    t := Contradicting();
    t := Step0(t, FINE, Processing, WriteSent("ref"), WriteFailed("down", true), Sent, Done(true));
    t := Step1(t, FINE, Sent, Done(true), WriteFailed("down", true), PermanentFailure, Done(false));
  }

  /** and one that was given up ends as Sent. */
  lemma FailedSends() returns (t: Trace)
    ensures Good(t) && Turned(t, PermanentFailure, Sent)
  {
    t := Contradicting();
    t := Step1(t, FINE, Processing, WriteSent("ref"), WriteFailed("down", true), PermanentFailure, Done(false));
    t := Step0(t, FINE, PermanentFailure, WriteSent("ref"), Done(false), Sent, Done(true));
  }

  // ----- The retry bound is reached -----

  lemma SendFailsInto(rows: map<Id, Row>, snap: Row, pc: Pc)
    requires snap.retryCount < MAX_RETRIES && pc == Increment(snap, "down")
    ensures RunDispatch(rows, 0, Sending(snap), Failing) == RunDispatch(rows, 0, pc, Failing)
  {
    UnrollTo(rows, 0, Sending(snap), Failing, DOWN, rows, pc);
  }

  lemma LateSendCounts(rows: map<Id, Row>, snap: Row, pc: Pc, f: Finished)
    requires 0 in rows && snap.retryCount < MAX_RETRIES && pc == Increment(snap, "down")
    requires f == RunDispatch(rows, 0, Sending(snap), Failing)
    ensures f.rows.Keys == rows.Keys && f.rows[0].retryCount == rows[0].retryCount + 1
  {
    SendFailsInto(rows, snap, pc);
    RetrySettles(rows, 0, pc, Failing, f);
  }

  /** A dispatch that has loaded the row with retries to spare, and whose provider is down, counts one retry
      on whatever the row's count is by then. */
  lemma LateFailureCounts(rows: map<Id, Row>, snap: Row, f: Finished)
    requires 0 in rows && snap.retryCount < MAX_RETRIES && f == RunDispatch(rows, 0, Mark(snap), Failing)
    ensures f.rows.Keys == rows.Keys && f.rows[0].retryCount == rows[0].retryCount + 1
  {
    var marked := NextRows(rows, 0, Mark(snap), DOWN);
    assert f == RunDispatch(marked, 0, Sending(snap), Failing) by {
      UnrollTo(rows, 0, Mark(snap), Failing, DOWN, marked, Sending(snap));
    }
    LateSendCounts(marked, snap, Increment(snap, "down"), f);
  }

  /** The dispatches from `i` on have yet to mark the row they loaded. */
  ghost predicate Counting(s: State, snap: Row, n: nat, i: nat) {
    && 0 in s.rows && s.rows[0].retryCount == snap.retryCount + i
    && (forall p: Pid :: p in s.procs <==> p < n)
    && (forall p :: i <= p < n ==> s.procs[p] == Dispatching(0, Spawned, Mark(snap)))
  }

  lemma OneCounts(t: Trace, snap: Row, n: nat, i: nat) returns (t': Trace)
    requires Good(t) && Slim(t, n) && Counting(End(t), snap, n, i) && i < n && snap.retryCount < MAX_RETRIES
    ensures Good(t') && Slim(t', n) && Counting(End(t'), snap, n, i + 1)
  {
    var s := End(t);
    var states, events := DispatchIsAnExecution(s, i, Failing);
    LateFailureCounts(s.rows, snap, RunDispatch(s.rows, 0, Mark(snap), Failing));
    t' := Append(t, states, events);
  }

  lemma {:induction false} AllCount(t: Trace, snap: Row, n: nat, i: nat) returns (t': Trace)
    requires Good(t) && Slim(t, n) && Counting(End(t), snap, n, 0) && i <= n && snap.retryCount < MAX_RETRIES
    ensures Good(t') && Slim(t', n) && Counting(End(t'), snap, n, i)
    decreases i
  {
    if i == 0 {
      t' := t;
    } else {
      t' := AllCount(t, snap, n, i - 1);
      t' := OneCounts(t', snap, n, i - 1);
    }
  }

  lemma SlimMeansNarrow(procs: map<Pid, Proc>, id: Id, at: Pc -> bool, width: nat)
    requires forall p :: p in procs ==> p < width
    ensures |At(procs, id, at)| <= width
  {
    Few(At(procs, id, at), width);
  }

  lemma {:induction false} Few(some: set<Pid>, width: nat)
    requires forall p :: p in some ==> p < width
    ensures |some| <= width
    decreases width
  {
    if width == 0 {
      assert some == {};
    } else {
      Few(some - {width - 1}, width - 1);
    }
  }

  lemma SlimMeansOverlapping(t: Trace, width: nat)
    requires Slim(t, width)
    ensures forall i :: 0 <= i < |t.states| ==> Retries.Overlapping(t.states[i], width)
  {
    forall i | 0 <= i < |t.states|
      ensures Retries.Overlapping(t.states[i], width)
    {
      assert Below(t.states[i], width);
      forall id
        ensures Retries.Narrow(t.states[i], id, width)
      {
        SlimMeansNarrow(t.states[i].procs, id, Retries.Holding, width);
      }
    }
  }

  /** No smaller bound holds: for every width there is a run in which at most that many dispatches of any row
      overlap and a row's retry count is `MAX_RETRIES + (width - 1)`. */
  lemma RetryBoundReached(width: nat) returns (t: Trace)
    requires width > 0
    ensures Good(t) && forall i :: 0 <= i < |t.states| ==> Retries.Overlapping(t.states[i], width)
    ensures 0 in End(t).rows && End(t).rows[0].retryCount == MAX_RETRIES + (width - 1)
  {
    var row;
    t, row := Retried(MAX_RETRIES - 1);
    assert Slim(t, width);
    t := Crowd(t, row, width);
    t := AllCount(t, row, width, width);
    SlimMeansOverlapping(t, width);
  }

  // ----- Orphans -----

  /** A failing first query is enough to orphan a row: the delivery is nacked and gone. */
  lemma LoadErrorOrphans() returns (t: Trace)
    ensures Good(t) && !Carriers.Kept(End(t), 0) && End(t).rows[0].status == Pending
  {
    t := Queued();
    t := Delivered(t, REQUEST);
    t := Go(t, 0, FINE.(fault := Unapplied));
  }

  /** So is a mark that took effect behind an error; it leaves the row Processing. */
  lemma MarkErrorOrphans() returns (t: Trace)
    ensures Good(t) && !Carriers.Kept(End(t), 0) && End(t).rows[0].status == Processing
  {
    t := Queued();
    t := Delivered(t, REQUEST);
    t := Go(t, 0, FINE);
    t := Go(t, 0, FINE.(fault := Applied));
  }

  // ----- Pushes that are heard again -----

  const PUSHED := FINE.(accepted := {"device"})

  /** What the device has heard of row 0, and how the surplus came about. */
  ghost predicate Heard(s: State, pushes: nat, lostOks: nat, cut: nat) {
    s.book.pushes[(0, "device")] == pushes && s.book.lostOks[0] == lostOks && s.book.cut[0] == cut
  }

  /** The row is taken from the queue, loaded and marked. */
  lemma ToProvider(t: Trace, row: Row) returns (t': Trace, marked: Row)
    requires Good(t) && Slim(t, 1) && Waiting(End(t), row) && Active(row)
    ensures Good(t') && Slim(t', 1) && marked.status == Processing && marked.updatedAt == 0
    ensures var s := End(t');
      && s.rows == map[0 := marked] && s.dispatchQ == multiset{} && s.retryQ == multiset{}
      && s.procs == map[0 := Dispatching(0, Delivery, Sending(row))] && s.book == End(t).book
  {
    t' := Delivered(t, row);
    t' := Go(t', 0, FINE);
    assert End(t').procs == map[0 := Dispatching(0, Delivery, Mark(row))];
    t' := Go(t', 0, FINE);
    marked := End(t').rows[0];
    assert End(t').rows == map[0 := marked];
    assert End(t').procs == map[0 := Dispatching(0, Delivery, Sending(row))];
  }

  /** The device takes the message. */
  lemma Pushed(t: Trace, row: Row, n: nat, a: nat, b: nat) returns (t': Trace)
    requires Good(t) && Slim(t, 1) && End(t).procs == map[0 := Dispatching(0, Delivery, Sending(row))]
    requires Heard(End(t), n, a, b)
    ensures Good(t') && Slim(t', 1) && Heard(End(t'), n + 1, a, b)
    ensures var s, s' := End(t), End(t');
      && s'.rows == s.rows && s'.dispatchQ == s.dispatchQ && s'.retryQ == s.retryQ
      && s'.procs == map[0 := Dispatching(0, Delivery, WriteSent("ref"))]
  {
    var s := End(t);
    assert (set u | u in PUSHED.accepted :: (0, u)) == {(0, "device")};
    t' := Go(t, 0, PUSHED);
    assert End(t').book == Recorded(s.book, 0, s.procs[0].pc, PUSHED);
  }

  /** The only process dies within its provider call, after the device took the message. */
  function Struck(s: State): State {
    s.(procs := map[], dispatchQ := multiset{0},
       book := s.book.(sends := s.book.sends + multiset{0}, lost := s.book.lost + multiset{0},
                       cut := s.book.cut + multiset{0}, pushes := s.book.pushes + multiset{(0, "device")}))
  }

  lemma StrikeIsAStep(s: State, row: Row)
    requires s.procs == map[0 := Dispatching(0, Delivery, Sending(row))] && s.dispatchQ == multiset{}
    ensures Step(s, Crash({0}), Struck(s))
  {
    var s' := Struck(s);
    assert s.procs - {0} == s'.procs;
    forall id
      ensures s'.dispatchQ[id] == s.dispatchQ[id] + |OwnedDeliveries(s.procs, {0}, id)|
      ensures CrashRecorded(s, {0}, s'.book, id)
    {
      var own := if id == 0 then {0} else {};
      assert OwnedDeliveries(s.procs, {0}, id) == own && AtAmong(s.procs, {0}, id, AtSending) == own;
      assert AtAmong(s.procs, {0}, id, AfterSend) == {} && AtAmong(s.procs, {0}, id, AtWriteSent) == {};
    }
  }

  /** A crash within the fan-out: the broker delivers the message once more. */
  lemma Interrupted(t: Trace, row: Row, n: nat, a: nat, b: nat) returns (t': Trace, row': Row)
    requires Good(t) && Slim(t, 1) && Waiting(End(t), row) && Active(row) && Heard(End(t), n, a, b)
    ensures Good(t') && Slim(t', 1) && Waiting(End(t'), row') && Active(row') && Heard(End(t'), n + 1, a, b + 1)
  {
    t', row' := ToProvider(t, row);
    var s := End(t');
    StrikeIsAStep(s, row);
    t' := Extend(t', Crash({0}), Struck(s));
  }

  /** The Sent write fails and the delivery is nacked. The row is stuck in Processing until a sweep. */
  lemma Unwritten(t: Trace, row: Row, n: nat, a: nat, b: nat) returns (t': Trace, row': Row)
    requires Good(t) && Slim(t, 1) && Waiting(End(t), row) && Active(row) && Heard(End(t), n, a, b)
    ensures Good(t') && Slim(t', 1) && row'.status == Processing && row'.updatedAt == 0
    ensures var s := End(t');
      s.rows == map[0 := row'] && s.dispatchQ == multiset{} && s.retryQ == multiset{} && s.procs == map[]
    ensures Heard(End(t'), n + 1, a + 1, b)
  {
    t', row' := ToProvider(t, row);
    t' := Pushed(t', row, n, a, b);
    var s, o := End(t'), FINE.(fault := Unapplied);
    t' := Go(t', 0, o);
    assert End(t').book == Recorded(s.book, 0, WriteSent("ref"), o);
    var s' := End(t').(procs := End(t').procs - {0});
    assert s'.procs == map[];
    t' := Extend(t', Finish(0), s');
  }

  /** A sweep resets the row, */
  lemma SweepFetches(t: Trace, row: Row) returns (t': Trace, row': Row)
    requires Good(t) && Slim(t, 1) && row.status == Processing && row.updatedAt == 0
    requires var s := End(t);
      s.rows == map[0 := row] && s.dispatchQ == multiset{} && s.retryQ == multiset{} && s.procs == map[]
    ensures Good(t') && Slim(t', 1) && Active(row')
    ensures End(t') == End(t).(rows := map[0 := row'], procs := map[0 := Sweeper([0])])
  {
    row' := Unstuck(row, 0, 1);
    var s1 := End(t).(rows := map[0 := row']);
    assert ResetStuck(End(t).rows, 0, 1) == s1.rows;
    t' := Extend(t, Reset(0, 1), s1);
    assert DueIds(s1.rows, 1) == {0};
    var s2 := s1.(procs := map[0 := Sweeper([0])]);
    assert s1.procs[0 := Sweeper([0])] == s2.procs;
    t' := Extend(t', Fetch(0, 1, 1, [0]), s2);
  }

  /** and hands it out. */
  lemma SweepEnds(t: Trace, row: Row) returns (t': Trace)
    requires Good(t) && Slim(t, 1)
    requires var s := End(t);
      && s.rows == map[0 := row] && s.dispatchQ == multiset{} && s.retryQ == multiset{}
      && s.procs == map[0 := Sweeper([0])]
    ensures Good(t') && Slim(t', 1) && Waiting(End(t'), row) && End(t').book == End(t).book
  {
    var s3 := End(t).(procs := map[0 := Sweeper([])], dispatchQ := multiset{0});
    assert [0][1..] == [] && End(t).procs[0 := Sweeper([])] == s3.procs;
    t' := Extend(t, SweepTrigger(0, true, 1), s3);
    var s4 := s3.(procs := map[]);
    assert s3.procs - {0} == s4.procs;
    t' := Extend(t', Finish(0), s4);
  }

  /** So often the Sent write failed, and so often the process died within the fan-out. */
  lemma {:induction false} HeardAgain(lostOks: nat, cut: nat) returns (t: Trace, row: Row)
    ensures Good(t) && Slim(t, 1) && Waiting(End(t), row) && Active(row) && Heard(End(t), lostOks + cut, lostOks, cut)
    decreases lostOks + cut
  {
    if lostOks > 0 {
      t, row := HeardAgain(lostOks - 1, cut);
      t, row := Unwritten(t, row, lostOks - 1 + cut, lostOks - 1, cut);
      t, row := SweepFetches(t, row);
      t := SweepEnds(t, row);
    } else if cut > 0 {
      t, row := HeardAgain(lostOks, cut - 1);
      t, row := Interrupted(t, row, lostOks + cut - 1, lostOks, cut - 1);
    } else {
      t := Queued();
      row := REQUEST;
    }
  }

  /** No smaller bound on pushes holds: for all numbers of lost writes and of crashes within the fan-out there is a
      run without overlaps in which the device hears once for each of them and once more. */
  lemma PushBoundReached(lostOks: nat, cut: nat) returns (t: Trace)
    ensures Good(t) && Retries.Serialised(t.states)
    ensures Heard(End(t), 1 + lostOks + cut, lostOks, cut)
  {
    var row;
    t, row := HeardAgain(lostOks, cut);
    var marked;
    t, marked := ToProvider(t, row);
    t := Pushed(t, row, lostOks + cut, lostOks, cut);
    SlimMeansOverlapping(t, 1);
  }
}
