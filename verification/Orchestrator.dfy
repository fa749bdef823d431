/** `NotificationOrchestrator` and the broker consumer as they run alone, proved against the steps of the
    protocol. */
module Orchestrator {
  import opened Domain
  import opened Backoff
  import opened Repository
  import opened Protocol
  import opened RabbitMq

  // ----- One dispatch, undisturbed -----

  /** The adapter calls a dispatch at `pc` can still make, at most. Also names the answer it reads next. */
  function Rank(pc: Pc): nat {
    match pc
    case Load => 6
    case Mark(_) => 5
    case Sending(_) => 4
    case WriteSent(_) => 3
    case WriteFailed(_, _) => 3
    case Increment(_, _) => 3
    case WritePending(_, _) => 2
    case Publish(_) => 1
    case Done(_) => 0
  }

  /** What a dispatch leaves behind: the table, its result, and the delay of the retry it scheduled. */
  datatype Finished = Finished(rows: map<Id, Row>, ok: bool, retryIn: Option<int>)

  /** The protocol's steps in a row, with `env` the adapters' answers. */
  function RunDispatch(rows: map<Id, Row>, id: Id, pc: Pc, env: nat -> Outcome): Finished
    decreases Rank(pc)
  {
    if pc.Done? then Finished(rows, pc.ok, None)
    else
      var o := env(Rank(pc));
      var rest := RunDispatch(NextRows(rows, id, pc, o), id, NextPc(Lookup(rows, id), pc, o), env);
      if pc.Publish? then rest.(retryIn := Some(pc.delay)) else rest
  }

  lemma Unroll(rows: map<Id, Row>, id: Id, pc: Pc, env: nat -> Outcome)
    requires !pc.Done? && !pc.Publish?
    ensures var o := env(Rank(pc));
      RunDispatch(rows, id, pc, env)
      == RunDispatch(NextRows(rows, id, pc, o), id, NextPc(Lookup(rows, id), pc, o), env)
  {
  }

  /** The three ends of a dispatch that got as far as its provider's answer or its template's error. */
  lemma RunFinal(rows: map<Id, Row>, id: Id, pc: Pc, env: nat -> Outcome)
    requires id in rows && (pc.WriteSent? || pc.WriteFailed?) && env(3).fault == Fine
    ensures RunDispatch(rows, id, pc, env)
         == Finished(Updated(rows, id, Statement(pc, env(3).now).value, env(3).dbNow), pc.WriteSent?, None)
  {
    var rows' := NextRows(rows, id, pc, env(3));
    assert RunDispatch(rows', id, Done(pc.WriteSent?), env) == Finished(rows', pc.WriteSent?, None);
  }

  lemma RunBack(rows: map<Id, Row>, id: Id, error: string, delay: int, env: nat -> Outcome)
    requires id in rows && env(2).fault == Fine
    ensures RunDispatch(rows, id, WritePending(error, delay), env)
         == Finished(Updated(rows, id, SetStatus(Pending, Some(error), None, env(2).now), env(2).dbNow), true,
                     Some(delay))
  {
    var pending := NextRows(rows, id, WritePending(error, delay), env(2));
    assert RunDispatch(rows, id, WritePending(error, delay), env)
        == RunDispatch(pending, id, Publish(delay), env);
    assert RunDispatch(pending, id, Done(true), env) == Finished(pending, true, None);
  }

  lemma AfterIncrement(rows: map<Id, Row>, id: Id, snap: Row, error: string, delay: int, o: Outcome)
    requires o.fault == Fine && delay == Delay(snap.retryCount + 1)
    ensures NextPc(Lookup(rows, id), Increment(snap, error), o) == WritePending(error, delay)
    ensures NextRows(rows, id, Increment(snap, error), o) == Updated(rows, id, BumpRetry(o.now + delay), o.dbNow)
  {
  }

  lemma UnrollTo(rows: map<Id, Row>, id: Id, pc: Pc, env: nat -> Outcome, o: Outcome, rows': map<Id, Row>, pc': Pc)
    requires !pc.Done? && !pc.Publish? && o == env(Rank(pc))
    requires rows' == NextRows(rows, id, pc, o) && pc' == NextPc(Lookup(rows, id), pc, o)
    ensures RunDispatch(rows, id, pc, env) == RunDispatch(rows', id, pc', env)
  {
    Unroll(rows, id, pc, env);
  }

  lemma IncrementUnrolls(rows: map<Id, Row>, id: Id, pc: Pc, env: nat -> Outcome, delay: int, bumped: map<Id, Row>)
    requires pc.Increment? && env(3).fault == Fine && delay == Delay(pc.snap.retryCount + 1)
    requires bumped == Updated(rows, id, BumpRetry(env(3).now + delay), env(3).dbNow)
    ensures RunDispatch(rows, id, pc, env) == RunDispatch(bumped, id, WritePending(pc.error, delay), env)
  {
    var o := env(3);
    assert Rank(pc) == 3;
    AfterIncrement(rows, id, pc.snap, pc.error, delay, o);
    UnrollTo(rows, id, pc, env, o, bumped, WritePending(pc.error, delay));
  }

  /** The retry branch, from the increment on. */
  lemma RunRetry(rows: map<Id, Row>, id: Id, pc: Pc, env: nat -> Outcome, delay: int, bumped: map<Id, Row>)
    requires id in rows && pc.Increment? && env(3).fault == Fine && env(2).fault == Fine
    requires delay == Delay(pc.snap.retryCount + 1)
    requires bumped == Updated(rows, id, BumpRetry(env(3).now + delay), env(3).dbNow)
    ensures RunDispatch(rows, id, pc, env)
         == Finished(Updated(bumped, id, SetStatus(Pending, Some(pc.error), None, env(2).now), env(2).dbNow),
                     true, Some(delay))
  {
    IncrementUnrolls(rows, id, pc, env, delay, bumped);
    RunBack(bumped, id, pc.error, delay, env);
  }

  /** What the service promises of one dispatch, by the row it found, the rendering and the provider. */
  ghost predicate Settlement(row: Row, now: Row, f: Finished, env: nat -> Outcome) {
    if env(5).rendered.Err? then
      && now == row.(status := PermanentFailure, errorMessage := Some(env(5).rendered.error), providerRef := None,
                     updatedAt := env(3).dbNow)
      && !f.ok && f.retryIn == None
    else Answered(row, now, f, env)
  }

  /** The same, once the provider was called. */
  ghost predicate Answered(row: Row, now: Row, f: Finished, env: nat -> Outcome) {
    if env(4).sent.Ok? then
      && now == row.(status := Sent, sentAt := Some(env(3).now), errorMessage := None,
                     providerRef := Some(env(4).sent.value), updatedAt := env(3).dbNow)
      && f.ok && f.retryIn == None
    else if row.retryCount >= MAX_RETRIES then
      && now == row.(status := PermanentFailure, errorMessage := Some(env(4).sent.error), providerRef := None,
                     updatedAt := env(3).dbNow)
      && !f.ok && f.retryIn == None
    else
      && f.ok && f.retryIn == Some(Delay(row.retryCount + 1))
      && now == row.(status := Pending, errorMessage := Some(env(4).sent.error), providerRef := None,
                     retryCount := row.retryCount + 1, nextRetryAt := env(3).now + f.retryIn.value,
                     updatedAt := env(2).dbNow)
  }

  /** No row but `id` differs, and none comes or goes. */
  ghost predicate OnlyTouches(rows: map<Id, Row>, rows': map<Id, Row>, id: Id) {
    rows'.Keys == rows.Keys && forall i :: i in rows && i != id ==> rows'[i] == rows[i]
  }

  lemma RetrySettles(rows: map<Id, Row>, id: Id, pc: Pc, env: nat -> Outcome, f: Finished)
    requires id in rows && pc.Increment? && env(3).fault == Fine && env(2).fault == Fine
    requires f == RunDispatch(rows, id, pc, env)
    ensures OnlyTouches(rows, f.rows, id)
    ensures f.rows[id] == rows[id].(status := Pending, errorMessage := Some(pc.error), providerRef := None,
                                    retryCount := rows[id].retryCount + 1,
                                    nextRetryAt := env(3).now + Delay(pc.snap.retryCount + 1),
                                    updatedAt := env(2).dbNow)
    ensures f.ok && f.retryIn == Some(Delay(pc.snap.retryCount + 1))
  {
    var delay := Delay(pc.snap.retryCount + 1);
    RunRetry(rows, id, pc, env, delay, Updated(rows, id, BumpRetry(env(3).now + delay), env(3).dbNow));
  }

  lemma FinalSettles(rows: map<Id, Row>, id: Id, pc: Pc, env: nat -> Outcome, f: Finished)
    requires id in rows && (pc.WriteSent? || pc.WriteFailed?) && env(3).fault == Fine
    requires f == RunDispatch(rows, id, pc, env)
    ensures OnlyTouches(rows, f.rows, id)
    ensures f.ok == pc.WriteSent? && f.retryIn == None
    ensures pc.WriteSent? ==>
      f.rows[id] == rows[id].(status := Sent, sentAt := Some(env(3).now), errorMessage := None,
                              providerRef := Some(pc.providerRef), updatedAt := env(3).dbNow)
    ensures pc.WriteFailed? ==>
      f.rows[id] == rows[id].(status := PermanentFailure, errorMessage := Some(pc.error), providerRef := None,
                              updatedAt := env(3).dbNow)
  {
    RunFinal(rows, id, pc, env);
  }

  lemma AnswerSettles(rows: map<Id, Row>, id: Id, snap: Row, env: nat -> Outcome, f: Finished)
    requires forall n :: env(n).fault == Fine
    requires id in rows && rows[id].retryCount == snap.retryCount
    requires f == RunDispatch(rows, id, Sending(snap), env)
    ensures OnlyTouches(rows, f.rows, id) && Answered(rows[id], f.rows[id], f, env)
  {
    var o := env(4);
    var pc := if o.sent.Ok? then WriteSent(o.sent.value)
              else if snap.retryCount >= MAX_RETRIES then WriteFailed(o.sent.error, true)
              else Increment(snap, o.sent.error);
    UnrollTo(rows, id, Sending(snap), env, o, rows, pc);
    if pc.Increment? {
      RetrySettles(rows, id, pc, env, f);
    } else {
      FinalSettles(rows, id, pc, env, f);
    }
  }

  /** With a working repository a dispatch of an unfinished row ends it or schedules its next retry, and
      touches no other row. */
  lemma DispatchSettles(rows: map<Id, Row>, id: Id, env: nat -> Outcome)
    requires forall n :: env(n).fault == Fine
    ensures var f, row := RunDispatch(rows, id, Load, env), Lookup(rows, id);
      && OnlyTouches(rows, f.rows, id)
      && (row.None? || !Active(row.value) ==> f == Finished(rows, row.Some?, None))
      && (row.Some? && Active(row.value) ==> Settlement(row.value, f.rows[id], f, env))
  {
    var row := Lookup(rows, id);
    if row.Some? && Active(row.value) {
      var snap := row.value;
      var marked := NextRows(rows, id, Mark(snap), env(5));
      assert RunDispatch(rows, id, Load, env) == RunDispatch(rows, id, Mark(snap), env);
      if env(5).rendered.Err? {
        var pc := WriteFailed(env(5).rendered.error, false);
        assert RunDispatch(rows, id, Mark(snap), env) == RunDispatch(marked, id, pc, env);
        FinalSettles(marked, id, pc, env, RunDispatch(rows, id, Load, env));
      } else {
        assert RunDispatch(rows, id, Mark(snap), env) == RunDispatch(marked, id, Sending(snap), env);
        AnswerSettles(marked, id, snap, env, RunDispatch(rows, id, Load, env));
      }
    }
  }

  /** A write that fails is the dispatch's last call: it publishes nothing and returns an error. */
  lemma FaultEnds(rows: map<Id, Row>, id: Id, pc: Pc, env: nat -> Outcome)
    requires pc.Load? || pc.Mark? || pc.WriteSent? || pc.WriteFailed? || pc.Increment? || pc.WritePending?
    requires env(Rank(pc)).fault != Fine
    ensures RunDispatch(rows, id, pc, env) == Finished(NextRows(rows, id, pc, env(Rank(pc))), false, None)
  {
    Unroll(rows, id, pc, env);
    assert NextPc(Lookup(rows, id), pc, env(Rank(pc))) == Done(false);
  }

  /** The calls of one dispatch of an unfinished row, up to the one that fails: the load has touched no row; a mark
      that fails is not followed by a provider call; after a write that fails nothing is published. */
  lemma FaultEndsDispatch(rows: map<Id, Row>, id: Id, env: nat -> Outcome)
    requires id in rows && Active(rows[id])
    ensures var f := RunDispatch(rows, id, Load, env);
      && (env(6).fault != Fine ==> f == Finished(rows, false, None))
      && (env(6).fault == Fine && env(5).fault != Fine ==>
            f == Finished(NextRows(rows, id, Mark(rows[id]), env(5)), false, None))
      && (env(6).fault == Fine && env(5).fault == Fine && env(3).fault != Fine ==> !f.ok && f.retryIn == None)
  {
    if env(6).fault != Fine {
      FaultEnds(rows, id, Load, env);
    } else {
      Unroll(rows, id, Load, env);
      if env(5).fault != Fine {
        FaultEnds(rows, id, Mark(rows[id]), env);
      } else if env(3).fault != Fine {
        FaultAfterMark(rows, id, env);
      }
    }
  }

  lemma FaultAfterMark(rows: map<Id, Row>, id: Id, env: nat -> Outcome)
    requires id in rows && env(5).fault == Fine && env(3).fault != Fine
    ensures var f := RunDispatch(rows, id, Mark(rows[id]), env); !f.ok && f.retryIn == None
  {
    var snap, marked := rows[id], NextRows(rows, id, Mark(rows[id]), env(5));
    if env(5).rendered.Err? {
      var pc := WriteFailed(env(5).rendered.error, false);
      UnrollTo(rows, id, Mark(snap), env, env(5), marked, pc);
      FaultEnds(marked, id, pc, env);
    } else {
      UnrollTo(rows, id, Mark(snap), env, env(5), marked, Sending(snap));
      var o := env(4);
      var pc := if o.sent.Ok? then WriteSent(o.sent.value)
                else if snap.retryCount >= MAX_RETRIES then WriteFailed(o.sent.error, true)
                else Increment(snap, o.sent.error);
      UnrollTo(marked, id, Sending(snap), env, o, marked, pc);
      FaultEnds(marked, id, pc, env);
    }
  }

  /** The state a single undisturbed step of dispatch `p` leads to. */
  function Advanced(s: State, p: Pid, o: Outcome, q: Pid): State
    requires p in s.procs && s.procs[p].Dispatching?
  {
    var d := s.procs[p];
    var moved := s.procs[p := d.(pc := NextPc(Lookup(s.rows, d.id), d.pc, o))];
    s.(rows := NextRows(s.rows, d.id, d.pc, o),
       book := Recorded(s.book, d.id, d.pc, o),
       retryQ := if d.pc.Publish? && o.published then s.retryQ + multiset{d.id} else s.retryQ,
       procs := if d.pc.Publish? && !o.published then moved[q := Timer(d.id)] else moved)
  }

  lemma StepThenRest(rows: map<Id, Row>, id: Id, pc: Pc, env: nat -> Outcome, o: Outcome)
    requires !pc.Done? && o == env(Rank(pc))
    ensures var f, rest := RunDispatch(rows, id, pc, env),
                           RunDispatch(NextRows(rows, id, pc, o), id, NextPc(Lookup(rows, id), pc, o), env);
      f.rows == rest.rows && f.ok == rest.ok && f.retryIn == if pc.Publish? then Some(pc.delay) else rest.retryIn
    ensures pc.Publish? ==>
      RunDispatch(NextRows(rows, id, pc, o), id, NextPc(Lookup(rows, id), pc, o), env).retryIn == None
  {
  }

  lemma AdvancedIsAStep(s: State, p: Pid, o: Outcome, q: Pid)
    requires p in s.procs && s.procs[p].Dispatching? && !s.procs[p].pc.Done? && q !in s.procs && ProviderContract(o)
    ensures Step(s, Advance(p, o, q), Advanced(s, p, o, q))
    ensures var s', d := Advanced(s, p, o, q), s.procs[p];
      && p in s'.procs && s'.procs[p] == d.(pc := NextPc(Lookup(s.rows, d.id), d.pc, o))
      && s'.rows == NextRows(s.rows, d.id, d.pc, o) && s'.dispatchQ == s.dispatchQ
  {
  }

  lemma AdvancedStands(s: State, p: Pid, o: Outcome, q: Pid)
    requires p in s.procs && s.procs[p].Dispatching? && !s.procs[p].pc.Done? && q !in s.procs
    ensures var s' := Advanced(s, p, o, q);
      && p in s'.procs && s'.procs[p].Dispatching? && Rank(s'.procs[p].pc) < Rank(s.procs[p].pc)
      && (s.procs[p].pc.Publish? ==> s'.procs[p].pc.Done?)
      && (o.published || !s.procs[p].pc.Publish? ==> s'.procs.Keys == s.procs.Keys)
  {
  }

  /** The state the dispatch's own steps end in. */
  ghost predicate LeadsTo(s: State, p: Pid, env: nat -> Outcome, last: State)
    requires p in s.procs && s.procs[p].Dispatching?
  {
    var d := s.procs[p];
    var f := RunDispatch(s.rows, d.id, d.pc, env);
    && last.rows == f.rows
    && p in last.procs && last.procs[p] == d.(pc := Done(f.ok))
    && last.dispatchQ == s.dispatchQ
    && (env(1).published ==> last.procs == s.procs[p := last.procs[p]])
    && last.retryQ == if f.retryIn.Some? && env(1).published then s.retryQ + multiset{d.id} else s.retryQ
  }

  lemma StepLeadsTo(s: State, p: Pid, env: nat -> Outcome, o: Outcome, q: Pid, last: State)
    requires p in s.procs && s.procs[p].Dispatching? && !s.procs[p].pc.Done? && q !in s.procs
    requires o == env(Rank(s.procs[p].pc)) && ProviderContract(o)
    requires p in Advanced(s, p, o, q).procs && Advanced(s, p, o, q).procs[p].Dispatching?
    requires LeadsTo(Advanced(s, p, o, q), p, env, last)
    ensures LeadsTo(s, p, env, last)
  {
    AdvancedIsAStep(s, p, o, q);
    StepThenRest(s.rows, s.procs[p].id, s.procs[p].pc, env, o);
  }

  /** The undisturbed dispatch is one of the protocol's executions: whatever all executions keep, it keeps. */
  lemma {:induction false} DispatchIsAnExecution(s: State, p: Pid, env: nat -> Outcome)
    returns (states: seq<State>, events: seq<Event>)
    requires p in s.procs && s.procs[p].Dispatching?
    requires forall n :: ProviderContract(env(n))
    ensures Execution(states, events) && states[0] == s
    ensures forall e :: e in events ==> e.Advance? && e.p == p
    ensures LeadsTo(s, p, env, states[|events|])
    ensures env(1).published ==> forall i :: 0 <= i < |states| ==> states[i].procs.Keys == s.procs.Keys
    decreases Rank(s.procs[p].pc)
  {
    var d := s.procs[p];
    if d.pc.Done? {
      states, events := [s], [];
    } else {
      var o := env(Rank(d.pc));
      var q := FreshPid(s.procs);
      var s' := Advanced(s, p, o, q);
      AdvancedStands(s, p, o, q);
      var rest, later := DispatchIsAnExecution(s', p, env);
      states, events := [s] + rest, [Advance(p, o, q)] + later;
      StartEarlier(s, p, o, q, rest, later);
      assert states[|events|] == rest[|later|];
      StepLeadsTo(s, p, env, o, q, rest[|later|]);
    }
  }

  lemma StartEarlier(s: State, p: Pid, o: Outcome, q: Pid, states: seq<State>, events: seq<Event>)
    requires p in s.procs && s.procs[p].Dispatching? && !s.procs[p].pc.Done? && q !in s.procs && ProviderContract(o)
    requires Execution(states, events) && states[0] == Advanced(s, p, o, q)
    ensures Execution([s] + states, [Advance(p, o, q)] + events)
  {
    AdvancedIsAStep(s, p, o, q);
    var all, taken := [s] + states, [Advance(p, o, q)] + events;
    forall i | 0 <= i < |taken|
      ensures Step(all[i], taken[i], all[i + 1])
    {
      if i > 0 {
        assert all[i] == states[i - 1] && taken[i] == events[i - 1] && all[i + 1] == states[i];
      }
    }
  }

  // ----- The service -----

  lemma NextTask(ids: seq<Id>, i: nat)
    requires i < |ids|
    ensures multiset(ids[..i + 1]) == multiset(ids[..i]) + multiset{ids[i]}
  {
    assert ids[..i + 1] == ids[..i] + [ids[i]];
  }

  /** Fate of a consumed delivery. Neither puts the message back. */
  datatype Disposition = Ack | NackToDlx

  datatype InProcessRetry = InProcessRetry(id: Id, delayMs: int)

  class NotificationOrchestrator {
    const repo: NotificationRepository
    const mq: RabbitMQClient?
    var spawned: seq<Id>
    var timers: seq<InProcessRetry>

    constructor (repo: NotificationRepository, mq: RabbitMQClient?)
      ensures this.repo == repo && this.mq == mq && spawned == [] && timers == []
    {
      this.repo, this.mq := repo, mq;
      spawned, timers := [], [];
    }

    ghost function Parts(): set<object> {
      {this, repo} + (if mq == null then {} else {mq as object})
    }

    /** Every task handed out so far, by whichever way. */
    ghost function Tasks(): multiset<Id>
      reads this, mq
    {
      multiset(spawned) + if mq == null then multiset{} else multiset(mq.dispatchQueue)
    }

    /** The table and the result are `f`'s, and its retry, if any, went out once. */
    twostate predicate Left(f: Finished, id: Id, ok: bool, published: bool)
      reads this, repo, mq
    {
      && repo.rows == f.rows && ok == f.ok
      && var queued := f.retryIn.Some? && mq != null && published;
      && (mq != null ==>
            mq.retryQueue == old(mq.retryQueue) + if queued then [RetryMessage(id, f.retryIn.value)] else [])
      && timers == if f.retryIn.Some? && !queued then old(timers) + [InProcessRetry(id, f.retryIn.value)]
                   else old(timers)
    }

    method SpawnInProcessRetry(id: Id, delayMs: int)
      modifies this`timers
      ensures timers == old(timers) + [InProcessRetry(id, delayMs)]
    {
      timers := timers + [InProcessRetry(id, delayMs)];
    }

    /** The spawned retry wakes up: the timer is gone and the row is dispatched. */
    method WakeRetry(k: nat, env: nat -> Outcome) returns (ok: bool)
      requires k < |timers|
      requires timers[k].id in repo.rows ==> repo.rows[timers[k].id].retryCount >= 0
      modifies Parts()
      ensures var f := RunDispatch(old(repo.rows), old(timers[k].id), Load, env);
        var rest := old(timers[..k] + timers[k + 1..]);
        && repo.rows == f.rows && ok == f.ok
        && var queued := f.retryIn.Some? && mq != null && env(1).published;
        && (mq != null ==>
              mq.retryQueue == old(mq.retryQueue)
                               + if queued then [RetryMessage(old(timers[k].id), f.retryIn.value)] else [])
        && timers == if f.retryIn.Some? && !queued then rest + [InProcessRetry(old(timers[k].id), f.retryIn.value)]
                     else rest
    {
      var id := timers[k].id;
      timers := timers[..k] + timers[k + 1..];
      ok := Dispatch(id, env);
    }

    /** Whatever the adapters answer, the table ends as the protocol's steps say, and a scheduled retry
        goes out exactly once: on the retry queue with the full delay as its TTL, else on a timer. */
    method Dispatch(id: Id, env: nat -> Outcome) returns (ok: bool)
      requires id in repo.rows ==> repo.rows[id].retryCount >= 0
      modifies Parts()
      ensures Left(RunDispatch(old(repo.rows), id, Load, env), id, ok, env(1).published)
      ensures spawned == old(spawned) && (mq != null ==> mq.dispatchQueue == old(mq.dispatchQueue))
    {
      ghost var all := RunDispatch(repo.rows, id, Load, env);
      var found := repo.GetById(id, env(6).fault);
      if found.Err? || found.value.None? {
        assert all == RunDispatch(repo.rows, id, Done(false), env);
        return false;
      }
      var notification := found.value.value;
      if !Active(notification) {
        assert all == RunDispatch(repo.rows, id, Done(true), env);
        return true;
      }
      assert all == RunDispatch(repo.rows, id, Mark(notification), env);

      var written := repo.Update(id, SetStatus(Processing, None, None, env(5).now), env(5).dbNow, env(5).fault);
      if !written {
        assert all == RunDispatch(repo.rows, id, Done(false), env);
        return false;
      }
      if env(5).rendered.Err? {
        var error := env(5).rendered.error;
        assert all == RunDispatch(repo.rows, id, WriteFailed(error, false), env);
        ok := Fail(id, error, env(3));
        assert all == RunDispatch(repo.rows, id, Done(false), env);
        return;
      }
      assert all == RunDispatch(repo.rows, id, Sending(notification), env);
      ok := Send(id, notification, env);
    }

    /** From the provider call on. */
    method Send(id: Id, notification: Row, env: nat -> Outcome) returns (ok: bool)
      requires 0 <= notification.retryCount
      modifies Parts()
      ensures Left(RunDispatch(old(repo.rows), id, Sending(notification), env), id, ok, env(1).published)
      ensures spawned == old(spawned) && (mq != null ==> mq.dispatchQueue == old(mq.dispatchQueue))
    {
      ghost var all := RunDispatch(repo.rows, id, Sending(notification), env);
      match env(4).sent
      case Ok(providerRef) =>
        assert all == RunDispatch(repo.rows, id, WriteSent(providerRef), env);
        ok := repo.Update(id, SetStatus(Sent, None, Some(providerRef), env(3).now), env(3).dbNow, env(3).fault);
        assert all == RunDispatch(repo.rows, id, Done(ok), env);
      case Err(error) =>
        if notification.retryCount >= MAX_RETRIES {
          assert all == RunDispatch(repo.rows, id, WriteFailed(error, true), env);
          ok := Fail(id, error, env(3));
          assert all == RunDispatch(repo.rows, id, Done(false), env);
          return;
        }
        assert all == RunDispatch(repo.rows, id, Increment(notification, error), env);
        ok := Retry(id, notification, error, env);
    }

    method Fail(id: Id, error: string, o: Outcome) returns (ok: bool)
      modifies repo
      ensures repo.rows == NextRows(old(repo.rows), id, WriteFailed(error, true), o) && !ok
    {
      var _ := repo.Update(id, SetStatus(PermanentFailure, Some(error), None, o.now), o.dbNow, o.fault);
      ok := false;
    }

    /** The retry branch of `dispatch`. */
    method Retry(id: Id, notification: Row, error: string, env: nat -> Outcome) returns (ok: bool)
      requires 0 <= notification.retryCount < MAX_RETRIES
      modifies Parts()
      ensures Left(RunDispatch(old(repo.rows), id, Increment(notification, error), env), id, ok, env(1).published)
      ensures spawned == old(spawned) && (mq != null ==> mq.dispatchQueue == old(mq.dispatchQueue))
    {
      ghost var all := RunDispatch(repo.rows, id, Increment(notification, error), env);
      var delay := Delay(notification.retryCount + 1);
      var written := repo.Update(id, BumpRetry(env(3).now + delay), env(3).dbNow, env(3).fault);
      if !written {
        assert all == RunDispatch(repo.rows, id, Done(false), env);
        return false;
      }
      assert all == RunDispatch(repo.rows, id, WritePending(error, delay), env);
      ScheduledRetryIsExact(notification.retryCount);
      DelayFitsU32(notification.retryCount + 1);
      ok := PutBack(id, error, delay, env);
    }

    /** The row goes back to Pending, and its retry out. */
    method PutBack(id: Id, error: string, delay: int, env: nat -> Outcome) returns (ok: bool)
      requires 0 <= delay < U32_LIMIT && Place(delay) == RetryAfter(delay)
      modifies Parts()
      ensures Left(RunDispatch(old(repo.rows), id, WritePending(error, delay), env), id, ok, env(1).published)
      ensures spawned == old(spawned) && (mq != null ==> mq.dispatchQueue == old(mq.dispatchQueue))
    {
      ghost var all := RunDispatch(repo.rows, id, WritePending(error, delay), env);
      var written := repo.Update(id, SetStatus(Pending, Some(error), None, env(2).now), env(2).dbNow, env(2).fault);
      if !written {
        assert all == RunDispatch(repo.rows, id, Done(false), env);
        return false;
      }
      assert all == RunDispatch(repo.rows, id, Publish(delay), env);
      assert RunDispatch(repo.rows, id, Done(true), env) == Finished(repo.rows, true, None);
      ScheduleRetry(id, delay, env(1).published);
      return true;
    }

    /** One message on the retry queue, or one timer. */
    method ScheduleRetry(id: Id, delay: int, up: bool)
      requires 0 <= delay < U32_LIMIT && Place(delay) == RetryAfter(delay)
      modifies this`timers, if mq == null then {} else {mq as object}
      ensures mq != null ==>
        && mq.dispatchQueue == old(mq.dispatchQueue)
        && mq.retryQueue == old(mq.retryQueue) + if up then [RetryMessage(id, delay)] else []
      ensures timers == old(timers) + if mq != null && up then [] else [InProcessRetry(id, delay)]
    {
      var published := false;
      if mq != null {
        published := mq.PublishRetry(id, delay, up);
      }
      if !published {
        SpawnInProcessRetry(id, delay);
      }
    }

    method ProcessDispatchPayload(payload: Option<Id>, env: nat -> Outcome) returns (d: Disposition)
      requires payload.Some? && payload.value in repo.rows ==> repo.rows[payload.value].retryCount >= 0
      modifies Parts()
      ensures payload.None? ==> d == Ack && repo.rows == old(repo.rows)
      ensures payload.Some? ==>
        var f := RunDispatch(old(repo.rows), payload.value, Load, env);
        repo.rows == f.rows && (d == Ack <==> f.ok)
      ensures spawned == old(spawned) && (mq != null ==> mq.dispatchQueue == old(mq.dispatchQueue))
    {
      if payload.None? {
        return Ack;
      }
      var ok := Dispatch(payload.value, env);
      d := if ok then Ack else NackToDlx;
    }

    /** One task for the row, on the dispatch queue or else spawned. */
    method TriggerDispatch(id: Id, up: bool)
      modifies this`spawned, if mq == null then {} else {mq}
      ensures Tasks() == old(Tasks()) + multiset{id}
      ensures mq != null && up ==> mq.dispatchQueue == old(mq.dispatchQueue) + [id] && spawned == old(spawned)
      ensures mq == null || !up ==> spawned == old(spawned) + [id]
      ensures mq != null ==> mq.retryQueue == old(mq.retryQueue)
      ensures mq != null && !up ==> mq.dispatchQueue == old(mq.dispatchQueue)
    {
      if mq != null {
        var published := mq.PublishDispatch(id, up);
        if !published {
          spawned := spawned + [id];
        }
      } else {
        spawned := spawned + [id];
      }
    }

    /** The caller gets the id of the key's row. A task goes out exactly when that row is the caller's own. */
    method QueueNotification(newId: Id, request: Row, fault: Fault, up: bool) returns (r: Result<Id, string>)
      requires FreshRequest(request) && newId !in repo.rows
      modifies Parts()
      ensures r.Ok? <==> fault == Fine
      ensures r.Ok? ==> Creates(old(repo.rows), newId, request, repo.rows, r.value)
      ensures r.Ok? ==> r.value in repo.rows && repo.rows[r.value].key == request.key
      ensures Tasks() == old(Tasks()) + if r == Ok(newId) then multiset{newId} else multiset{}
      ensures r == Ok(newId) <==> fault == Fine && !KeyTaken(old(repo.rows), request.key)
      ensures r == Ok(newId) ==> Active(repo.rows[newId]) && repo.rows == old(repo.rows)[newId := request]
      ensures timers == old(timers)
    {
      r := repo.Create(newId, request, fault);
      assert Tasks() == old(Tasks());
      if r.Err? || r.value != newId {
        return;
      }
      assert repo.rows == old(repo.rows)[newId := request];
      TriggerDispatch(newId, up);
    }

    /** Resets the stuck rows, then hands out one task for each row the query selects. An error of either query
        ends the sweep before it hands out anything. */
    method RecoverPending(threshold: int, limit: nat, t1: int, t2: int, faults: (Fault, Fault), up: nat -> bool)
      returns (r: Result<nat, string>, ghost due: seq<Id>)
      modifies Parts()
      ensures r.Ok? <==> faults == (Fine, Fine)
      ensures repo.rows == if faults.0 == Unapplied then old(repo.rows) else ResetStuck(old(repo.rows), threshold, t1)
      ensures r.Ok? ==> Selects(repo.rows, limit, t2, due) && r.value == |due|
      ensures r.Ok? ==> SelectsRipe(repo.rows, limit, t2, due)
      ensures r.Err? ==> due == []
      ensures Tasks() == old(Tasks()) + multiset(due)
      ensures timers == old(timers) && (mq != null ==> mq.retryQueue == old(mq.retryQueue))
    {
      due := [];
      r := repo.ResetStuckProcessing(threshold, t1, faults.0);
      if r.Err? {
        return;
      }
      var ids := repo.GetPendingForRetry(limit, t2, faults.1);
      if ids.Err? {
        r := Err(ids.error);
        return;
      }
      due := ids.value;
      r := Ok(|ids.value|);
      TriggerAll(ids.value, up);
    }

    /** One task for each of these rows, in order. */
    method TriggerAll(ids: seq<Id>, up: nat -> bool)
      modifies this`spawned, if mq == null then {} else {mq}
      ensures Tasks() == old(Tasks()) + multiset(ids)
      ensures mq != null ==> mq.retryQueue == old(mq.retryQueue)
    {
      for i := 0 to |ids|
        invariant Tasks() == old(Tasks()) + multiset(ids[..i])
        invariant mq != null ==> mq.retryQueue == old(mq.retryQueue)
      {
        TriggerDispatch(ids[i], up(i));
        NextTask(ids, i);
      }
      assert ids[..|ids|] == ids;
    }

    /** The consumer loop dispatches the deliveries in order. It ends when the token fires, or with an error when
        an ack or nack does not go through: the broker then takes that delivery back. */
    method StartRabbitmqConsumer(turns: seq<Turn>, envs: nat -> (nat -> Outcome)) returns (ok: bool, n: nat)
      requires mq != null
      requires forall id :: id in repo.rows ==> repo.rows[id].retryCount >= 0
      modifies Parts()
      ensures n == Consumed(turns, 0, |old(mq.dispatchQueue)|) && (ok <==> !Breaks(turns, 0, |old(mq.dispatchQueue)|))
      ensures n <= |old(mq.dispatchQueue)| && (!ok ==> n > 0)
      ensures mq.dispatchQueue == old(mq.dispatchQueue)[if ok then n else n - 1..]
      ensures repo.rows == DispatchAll(old(repo.rows), old(mq.dispatchQueue), n, envs)
      ensures spawned == old(spawned)
    {
      ghost var queue := mq.dispatchQueue;
      var i := 0;
      ok, n := true, 0;
      while i < |turns| && !turns[i].Stop? && ok
        invariant 0 <= i <= |turns| && n <= |queue|
        invariant Tallied(turns, |queue|, i, n, ok)
        invariant Worked(old(repo.rows), queue, n, ok, envs)
        invariant spawned == old(spawned)
        decreases |turns| - i, ok
      {
        TallyTurn(turns, |queue|, i, n);
        ok, n := TakeTurn(turns[i], old(repo.rows), queue, n, envs);
        i := i + 1;
      }
      Tallies(turns, |queue|, i, n, ok);
    }

    /** `n` deliveries of the queue have been dispatched; the last one is back if its ack or nack failed. */
    ghost predicate Worked(start: map<Id, Row>, queue: seq<Id>, n: nat, ok: bool, envs: nat -> (nat -> Outcome))
      reads this, repo, mq
    {
      && mq != null && n <= |queue| && (!ok ==> n > 0)
      && mq.dispatchQueue == queue[if ok then n else n - 1..]
      && repo.rows == DispatchAll(start, queue, n, envs)
      && forall id :: id in repo.rows ==> repo.rows[id].retryCount >= 0
    }

    method TakeTurn(turn: Turn, ghost start: map<Id, Row>, ghost queue: seq<Id>, n: nat, envs: nat -> (nat -> Outcome))
      returns (ok: bool, n': nat)
      requires Worked(start, queue, n, true, envs)
      modifies Parts()
      ensures var more := turn.Arrival? && |queue| > n;
        n' == (if more then n + 1 else n) && ok == (more ==> turn.acked)
      ensures Worked(start, queue, n', ok, envs) && spawned == old(spawned)
    {
      ok, n' := true, n;
      if turn.Arrival? && mq.dispatchQueue != [] {
        ok := Consume(envs(n), turn.acked);
        n' := n + 1;
      }
    }

    /** One delivery: taken, dispatched, and acked or nacked, neither of which puts it back. */
    method Consume(env: nat -> Outcome, acked: bool) returns (ok: bool)
      requires mq != null && mq.dispatchQueue != []
      requires forall id :: id in repo.rows ==> repo.rows[id].retryCount >= 0
      modifies Parts()
      ensures ok == acked && spawned == old(spawned)
      ensures mq.dispatchQueue == if acked then old(mq.dispatchQueue)[1..] else old(mq.dispatchQueue)
      ensures repo.rows == RunDispatch(old(repo.rows), old(mq.dispatchQueue[0]), Load, env).rows
      ensures forall id :: id in repo.rows ==> repo.rows[id].retryCount >= 0
    {
      var queue := mq.dispatchQueue;
      RetryCountsStay(repo.rows, queue[0], Load, env);
      mq.dispatchQueue := queue[1..];
      var d := ProcessDispatchPayload(Some(queue[0]), env);
      ok := acked;
      if !acked {
        mq.dispatchQueue := queue;
      }
    }
  }

  /** One turn of the consumer loop: the next delivery and how its ack or nack went, a faulty delivery that is
      only logged, or the token (or the end of the stream). */
  datatype Turn = Arrival(acked: bool) | Faulty | Stop

  /** How many of the waiting deliveries are dispatched from turn `i` on. */
  function Consumed(turns: seq<Turn>, i: nat, waiting: nat): (n: nat)
    ensures n <= waiting
    decreases |turns| - i
  {
    if i >= |turns| || turns[i].Stop? then 0
    else if turns[i].Faulty? || waiting == 0 then Consumed(turns, i + 1, waiting)
    else if turns[i].acked then 1 + Consumed(turns, i + 1, waiting - 1)
    else 1
  }

  /** Some ack or nack of theirs does not go through. */
  predicate Breaks(turns: seq<Turn>, i: nat, waiting: nat)
    decreases |turns| - i
  {
    i < |turns| && !turns[i].Stop? &&
    if turns[i].Faulty? || waiting == 0 then Breaks(turns, i + 1, waiting)
    else !turns[i].acked || Breaks(turns, i + 1, waiting - 1)
  }

  /** After `i` turns `n` deliveries were dispatched, and `ok` says whether the loop goes on. */
  predicate Tallied(turns: seq<Turn>, waiting: nat, i: nat, n: nat, ok: bool)
    requires n <= waiting
  {
    && Consumed(turns, 0, waiting) == n + (if ok then Consumed(turns, i, waiting - n) else 0)
    && Breaks(turns, 0, waiting) == (!ok || Breaks(turns, i, waiting - n))
  }

  lemma TallyTurn(turns: seq<Turn>, waiting: nat, i: nat, n: nat)
    requires i < |turns| && !turns[i].Stop? && n <= waiting && Tallied(turns, waiting, i, n, true)
    ensures var more := turns[i].Arrival? && waiting > n;
      Tallied(turns, waiting, i + 1, if more then n + 1 else n, more ==> turns[i].acked)
  {
  }

  lemma Tallies(turns: seq<Turn>, waiting: nat, i: nat, n: nat, ok: bool)
    requires n <= waiting && Tallied(turns, waiting, i, n, ok)
    requires ok ==> i == |turns| || (i < |turns| && turns[i].Stop?)
    ensures n == Consumed(turns, 0, waiting) && (ok <==> !Breaks(turns, 0, waiting))
  {
  }

  function Arrivals(turns: seq<Turn>, i: nat, k: nat): nat
    requires i <= k <= |turns|
  {
    if i == k then 0 else Arrivals(turns, i, k - 1) + if turns[k - 1].Arrival? then 1 else 0
  }

  lemma {:induction false} FirstArrival(turns: seq<Turn>, i: nat, k: nat)
    requires i < k <= |turns|
    ensures Arrivals(turns, i, k) == (if turns[i].Arrival? then 1 else 0) + Arrivals(turns, i + 1, k)
    decreases k
  {
    if i + 1 < k {
      FirstArrival(turns, i, k - 1);
    }
  }

  /** The turns up to `k` go on: none is the token, and no ack or nack of a dispatched delivery fails. */
  ghost predicate GoesOn(turns: seq<Turn>, i: nat, k: nat, waiting: nat)
    requires i <= k <= |turns|
  {
    forall j :: i <= j < k ==> !turns[j].Stop? && (turns[j] == Arrival(false) ==> Arrivals(turns, i, j) >= waiting)
  }

  /** Before the token fires every arrival is dispatched as long as deliveries wait, whatever faulty ones come
      between; the first failing ack or nack ends the loop with its delivery dispatched. */
  lemma {:induction false} ConsumedExact(turns: seq<Turn>, i: nat, k: nat, waiting: nat)
    requires i <= k <= |turns| && GoesOn(turns, i, k, waiting)
    ensures k == |turns| || turns[k].Stop? ==>
      && !Breaks(turns, i, waiting)
      && Consumed(turns, i, waiting) == if Arrivals(turns, i, k) <= waiting then Arrivals(turns, i, k) else waiting
    ensures k < |turns| && turns[k] == Arrival(false) && Arrivals(turns, i, k) < waiting ==>
      Breaks(turns, i, waiting) && Consumed(turns, i, waiting) == Arrivals(turns, i, k) + 1
    decreases k - i
  {
    if i < k {
      var left := if turns[i].Arrival? && waiting > 0 then waiting - 1 else waiting;
      forall j | i < j < k
        ensures !turns[j].Stop? && (turns[j] == Arrival(false) ==> Arrivals(turns, i + 1, j) >= left)
      {
        FirstArrival(turns, i, j);
      }
      FirstArrival(turns, i, k);
      assert Arrivals(turns, i, i) == 0;
      ConsumedExact(turns, i + 1, k, left);
    }
  }

  /** A consumer that is left alone works the queue off. */
  lemma {:induction false} ConsumesAll(turns: seq<Turn>, i: nat, waiting: nat)
    requires forall t :: t in turns ==> t == Arrival(true)
    requires |turns| >= i + waiting
    ensures Consumed(turns, i, waiting) == waiting && !Breaks(turns, i, waiting)
    decreases |turns| - i
  {
    if i < |turns| {
      assert turns[i] in turns;
      ConsumesAll(turns, i + 1, if waiting == 0 then 0 else waiting - 1);
    }
  }

  /** The table after the first `n` queued tasks were dispatched one after the other. */
  function DispatchAll(rows: map<Id, Row>, queue: seq<Id>, n: nat, envs: nat -> (nat -> Outcome)): map<Id, Row>
    requires n <= |queue|
  {
    if n == 0 then rows
    else RunDispatch(DispatchAll(rows, queue, n - 1, envs), queue[n - 1], Load, envs(n - 1)).rows
  }

  /** A dispatch reads and writes its own row alone. */
  lemma {:induction false} RunIsLocal(rows: map<Id, Row>, other: map<Id, Row>, id: Id, pc: Pc, env: nat -> Outcome)
    requires Lookup(rows, id) == Lookup(other, id)
    ensures var f, g := RunDispatch(rows, id, pc, env), RunDispatch(other, id, pc, env);
      && OnlyTouches(rows, f.rows, id)
      && Lookup(f.rows, id) == Lookup(g.rows, id) && f.ok == g.ok && f.retryIn == g.retryIn
    decreases Rank(pc)
  {
    if !pc.Done? {
      var o := env(Rank(pc));
      RunIsLocal(NextRows(rows, id, pc, o), NextRows(other, id, pc, o), id, NextPc(Lookup(rows, id), pc, o), env);
    }
  }

  lemma {:induction false} OthersStand(rows: map<Id, Row>, queue: seq<Id>, n: nat, envs: nat -> (nat -> Outcome),
                                       id: Id)
    requires n <= |queue| && id !in queue[..n]
    ensures Lookup(DispatchAll(rows, queue, n, envs), id) == Lookup(rows, id)
    decreases n
  {
    if n > 0 {
      assert queue[..n] == queue[..n - 1] + [queue[n - 1]];
      OthersStand(rows, queue, n - 1, envs, id);
      var before := DispatchAll(rows, queue, n - 1, envs);
      RunIsLocal(before, before, queue[n - 1], Load, envs(n - 1));
    }
  }

  /** Every delivery is dispatched by itself: of distinct rows each ends as its own dispatch alone would leave it. */
  lemma {:induction false} EachByItself(rows: map<Id, Row>, queue: seq<Id>, n: nat, envs: nat -> (nat -> Outcome),
                                        k: nat)
    requires k < n <= |queue| && Distinct(queue)
    ensures Lookup(DispatchAll(rows, queue, n, envs), queue[k])
         == Lookup(RunDispatch(rows, queue[k], Load, envs(k)).rows, queue[k])
    decreases n
  {
    var before := DispatchAll(rows, queue, n - 1, envs);
    if k == n - 1 {
      OthersStand(rows, queue, k, envs, queue[k]);
      RunIsLocal(before, rows, queue[k], Load, envs(k));
    } else {
      EachByItself(rows, queue, n - 1, envs, k);
      RunIsLocal(before, before, queue[n - 1], Load, envs(n - 1));
    }
  }

  /** A dispatch creates and loses no row, and never takes a retry back. */
  lemma {:induction false} RetryCountsStay(rows: map<Id, Row>, id: Id, pc: Pc, env: nat -> Outcome)
    ensures var rows' := RunDispatch(rows, id, pc, env).rows;
      rows'.Keys == rows.Keys && forall i :: i in rows ==> rows'[i].retryCount >= rows[i].retryCount
    decreases Rank(pc)
  {
    if !pc.Done? {
      var o := env(Rank(pc));
      RetryCountsStay(NextRows(rows, id, pc, o), id, NextPc(Lookup(rows, id), pc, o), env);
    }
  }
}
