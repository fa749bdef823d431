/** One row and one trigger per idempotency key, over any interleaving of `queue_notification` calls with
    everything else. */
module Admission {
  import opened Domain
  import opened Repository
  import opened Protocol

  ghost predicate OneRowPerKey(rows: map<Id, Row>) {
    forall i, j :: i in rows && j in rows && rows[i].key.Some? && rows[i].key == rows[j].key ==> i == j
  }

  /** A call that succeeded names a row with its key, and triggered only a row of its own making. */
  ghost predicate Answered(s: State, c: Id)
    requires c in s.calls
  {
    var call := s.calls[c];
    && (call.returned.Some? ==>
          && var r := call.returned.value;
          && r in s.rows && s.rows[r].key == call.key && (r != c ==> call.key.Some?))
    && (call.triggered ==> call.returned == Some(c))
  }

  /** A caller still on its way to the trigger made its row itself, and is the only one to trigger it. */
  ghost predicate OnItsWay(s: State, p: Pid)
    requires p in s.procs && s.procs[p].Caller?
  {
    var c := s.procs[p].id;
    && c in s.calls && s.calls[c].returned == Some(c) && !s.calls[c].triggered
    && forall q :: q in s.procs && s.procs[q] == Caller(c) ==> q == p
  }

  ghost predicate Admitted(s: State) {
    && OneRowPerKey(s.rows)
    && (forall id :: id in s.rows ==> id in s.calls && s.calls[id].key == s.rows[id].key)
    && (forall c :: c in s.calls ==> Answered(s, c))
    && (forall p :: p in s.procs && s.procs[p].Caller? ==> OnItsWay(s, p))
  }

  // ----- Steps -----

  /** What the steps other than `queue_notification`'s own do to keys, calls and callers. */
  ghost predicate Elsewhere(s: State, s': State) {
    && s'.calls == s.calls
    && s'.rows.Keys == s.rows.Keys
    && (forall id :: id in s.rows ==> s'.rows[id].key == s.rows[id].key)
    && (forall p :: p in s'.procs && s'.procs[p].Caller? ==> p in s.procs && s'.procs[p] == s.procs[p])
  }

  lemma AdvanceIsElsewhere(s: State, e: Event, s': State)
    requires e.Advance? && AdvanceStep(s, e, s')
    ensures Elsewhere(s, s')
  {
  }

  lemma ResetIsElsewhere(s: State, e: Event, s': State)
    requires Step(s, e, s') && e.Reset?
    ensures Elsewhere(s, s')
  {
    assert forall id :: id in s.rows ==> s'.rows[id] == Unstuck(s.rows[id], e.threshold, e.dbNow);
  }

  lemma DeliveryIsElsewhere(s: State, e: Event, s': State)
    requires Step(s, e, s') && (e.SweepTrigger? || e.Deliver? || e.Expire? || e.Fire? || e.Finish? || e.Detach?)
    ensures Elsewhere(s, s')
  {
    assert s'.rows == s.rows && s'.calls == s.calls;
  }

  lemma OthersAreElsewhere(s: State, e: Event, s': State)
    requires Step(s, e, s') && !e.Queue? && !e.Trigger?
    ensures Elsewhere(s, s')
  {
    match e
    case Advance(_, _, _) => AdvanceIsElsewhere(s, e, s');
    case Reset(_, _) => ResetIsElsewhere(s, e, s');
    case MarkRead(_, _) =>
    case Fetch(_, _, _, _) =>
    case Crash(_) =>
    case _ => DeliveryIsElsewhere(s, e, s');
  }

  lemma ElsewhereKeepsAdmitted(s: State, s': State)
    requires Admitted(s) && Elsewhere(s, s')
    ensures Admitted(s')
  {
    forall c | c in s'.calls
      ensures Answered(s', c)
    {
      assert Answered(s, c);
    }
    forall p | p in s'.procs && s'.procs[p].Caller?
      ensures OnItsWay(s', p)
    {
      assert OnItsWay(s, p);
    }
  }

  lemma QueueKeepsAdmitted(s: State, e: Event, s': State)
    requires Admitted(s) && e.Queue? && QueueStep(s, e, s')
    ensures Admitted(s')
  {
    forall c | c in s'.calls
      ensures Answered(s', c)
    {
      if c != e.newId {
        assert Answered(s, c);
      }
    }
    forall p | p in s'.procs && s'.procs[p].Caller?
      ensures OnItsWay(s', p)
    {
      if p in s.procs {
        assert OnItsWay(s, p);
      }
    }
  }

  lemma TriggerKeepsAdmitted(s: State, e: Event, s': State)
    requires Admitted(s) && e.Trigger? && Step(s, e, s')
    ensures Admitted(s')
  {
    assert OnItsWay(s, e.p);
    forall c | c in s'.calls
      ensures Answered(s', c)
    {
      assert Answered(s, c);
    }
    forall p | p in s'.procs && s'.procs[p].Caller?
      ensures OnItsWay(s', p)
    {
      assert OnItsWay(s, p);
    }
  }

  lemma StepKeepsAdmitted(s: State, e: Event, s': State)
    requires Admitted(s) && Step(s, e, s')
    ensures Admitted(s')
  {
    match e
    case Queue(_, _, _, _, _) => QueueKeepsAdmitted(s, e, s');
    case Trigger(_, _) => TriggerKeepsAdmitted(s, e, s');
    case _ =>
      OthersAreElsewhere(s, e, s');
      ElsewhereKeepsAdmitted(s, s');
  }

  lemma {:induction false} AdmittedEver(states: seq<State>, events: seq<Event>, n: nat)
    requires Run(states, events) && n < |states|
    ensures Admitted(states[n])
    decreases n
  {
    if n > 0 {
      AdmittedEver(states, events, n - 1);
      StepKeepsAdmitted(states[n - 1], events[n - 1], states[n]);
    }
  }

  // ----- Theorems -----

  /** At every moment a non-null key has at most one row, and every successful call with that key
      answered this row's id; a call without a key answered its own. */
  lemma CallersAgree(states: seq<State>, events: seq<Event>, n: nat, c: Id)
    requires Run(states, events) && n < |states|
    requires c in states[n].calls && states[n].calls[c].returned.Some?
    ensures var call, rows := states[n].calls[c], states[n].rows;
      && call.returned.value in rows && rows[call.returned.value].key == call.key
      && (call.key.Some? ==> forall id :: id in rows && rows[id].key == call.key ==> id == call.returned.value)
      && (call.key.None? ==> call.returned.value == c)
  {
    AdmittedEver(states, events, n);
    assert Answered(states[n], c);
  }

  ghost predicate IsTriggerOf(s: State, e: Event, key: string) {
    e.Trigger? && e.p in s.procs && s.procs[e.p].Caller? && s.procs[e.p].id in s.calls
    && s.calls[s.procs[e.p].id].key == Some(key)
  }

  /** How often some caller triggered the dispatch of the row with this key. */
  ghost function Triggers(states: seq<State>, events: seq<Event>, key: string, n: nat): nat
    requires n <= |events| < |states|
  {
    if n == 0 then 0
    else Triggers(states, events, key, n - 1) + if IsTriggerOf(states[n - 1], events[n - 1], key) then 1 else 0
  }

  ghost predicate TriggeredBy(s: State, key: string, c: Id) {
    c in s.calls && s.calls[c].key == Some(key) && s.calls[c].triggered
  }

  /** A trigger marks its call, and marks stay. */
  lemma MarksStay(s: State, e: Event, s': State, key: string, c: Id)
    requires Step(s, e, s') && TriggeredBy(s, key, c)
    ensures TriggeredBy(s', key, c)
  {
    if !e.Queue? && !e.Trigger? {
      OthersAreElsewhere(s, e, s');
    }
  }

  /** No second trigger: the one that made the row is the only one to have triggered it. */
  lemma FirstTrigger(s: State, e: Event, key: string, c: Id)
    requires Admitted(s) && IsTriggerOf(s, e, key)
    ensures !TriggeredBy(s, key, c)
  {
    var own := s.procs[e.p].id;
    assert OnItsWay(s, e.p) && Answered(s, own);
    assert c in s.calls ==> Answered(s, c);
  }

  ghost predicate Triggered(s: State, key: string) {
    exists c :: TriggeredBy(s, key, c)
  }

  lemma TriggersNext(states: seq<State>, events: seq<Event>, key: string, i: nat)
    requires Run(states, events) && i < |events|
    ensures FiresFirst(states, events, key, i)
  {
    AdmittedEver(states, events, i);
    TriggersStep(states[i], events[i], states[i + 1], key);
  }

  /** This step triggers the key only if none before it did. */
  ghost predicate FiresFirst(states: seq<State>, events: seq<Event>, key: string, i: nat)
    requires i < |events| < |states|
  {
    && (IsTriggerOf(states[i], events[i], key) ==> !Triggered(states[i], key))
    && (Triggered(states[i + 1], key) <==> IsTriggerOf(states[i], events[i], key) || Triggered(states[i], key))
  }

  lemma {:induction false} FirstsCount(states: seq<State>, events: seq<Event>, key: string, n: nat)
    requires n <= |events| < |states| && !Triggered(states[0], key)
    requires forall i :: 0 <= i < n ==> FiresFirst(states, events, key, i)
    ensures Triggers(states, events, key, n) <= 1
    ensures Triggers(states, events, key, n) == 1 <==> Triggered(states[n], key)
    decreases n
  {
    if n > 0 {
      FirstsCount(states, events, key, n - 1);
      assert FiresFirst(states, events, key, n - 1);
    }
  }

  lemma TriggersCount(states: seq<State>, events: seq<Event>, key: string, n: nat)
    requires Run(states, events) && n < |states|
    ensures Triggers(states, events, key, n) <= 1
    ensures Triggers(states, events, key, n) == 1 <==> Triggered(states[n], key)
  {
    forall i | 0 <= i < n
      ensures FiresFirst(states, events, key, i)
    {
      TriggersNext(states, events, key, i);
    }
    FirstsCount(states, events, key, n);
  }

  lemma TriggersStep(s: State, e: Event, s': State, key: string)
    requires Admitted(s) && Step(s, e, s')
    ensures IsTriggerOf(s, e, key) ==> !Triggered(s, key)
    ensures Triggered(s', key) <==> IsTriggerOf(s, e, key) || Triggered(s, key)
  {
    if IsTriggerOf(s, e, key) {
      forall c {
        FirstTrigger(s, e, key, c);
      }
      assert TriggeredBy(s', key, s.procs[e.p].id);
    } else {
      if c :| TriggeredBy(s, key, c) {
        MarksStay(s, e, s', key, c);
      }
      if c :| TriggeredBy(s', key, c) {
        MarksCome(s, e, s', key, c);
      }
    }
  }

  lemma MarksCome(s: State, e: Event, s': State, key: string, c: Id)
    requires Step(s, e, s') && !IsTriggerOf(s, e, key) && TriggeredBy(s', key, c)
    ensures TriggeredBy(s, key, c)
  {
    if !e.Queue? && !e.Trigger? {
      OthersAreElsewhere(s, e, s');
    }
  }

  // ----- Exactly once -----

  /** No call failed and no process died. */
  predicate Unbroken(e: Event) {
    (e.Queue? ==> e.fault == Fine) && !e.Crash?
  }

  ghost predicate OwnerDone(s: State, id: Id) {
    id in s.calls && (s.calls[id].triggered || exists p :: p in s.procs && s.procs[p] == Caller(id))
  }

  ghost predicate Owned(s: State) {
    && (forall id :: id in s.rows ==> OwnerDone(s, id))
    && (forall c :: c in s.calls ==> s.calls[c].returned.Some?)
  }

  lemma QueueKeepsOwned(s: State, e: Event, s': State)
    requires Owned(s) && Step(s, e, s') && Unbroken(e) && e.Queue?
    ensures Owned(s')
  {
    forall id | id in s'.rows
      ensures OwnerDone(s', id)
    {
      if id in s.rows {
        assert OwnerDone(s, id);
        if !s.calls[id].triggered {
          var p :| p in s.procs && s.procs[p] == Caller(id);
          assert s'.procs[p] == Caller(id);
        }
      } else {
        assert s'.procs[e.q] == Caller(id);
      }
    }
  }

  lemma CallersGoOn(s: State, e: Event, s': State, p: Pid)
    requires Step(s, e, s') && Unbroken(e) && !e.Queue? && !e.Trigger?
    requires p in s.procs && s.procs[p].Caller?
    ensures p in s'.procs && s'.procs[p] == s.procs[p]
  {
  }

  lemma StepKeepsOwned(s: State, e: Event, s': State)
    requires Owned(s) && Step(s, e, s') && Unbroken(e)
    ensures Owned(s')
  {
    if e.Queue? {
      QueueKeepsOwned(s, e, s');
    } else {
      if !e.Trigger? {
        OthersAreElsewhere(s, e, s');
      }
      forall id | id in s'.rows
        ensures OwnerDone(s', id)
      {
        assert OwnerDone(s, id);
        if !s.calls[id].triggered {
          var p :| p in s.procs && s.procs[p] == Caller(id);
          if e.Trigger? {
            if e.p != p {
              assert s'.procs[p] == Caller(id);
            }
          } else {
            CallersGoOn(s, e, s', p);
          }
        }
      }
    }
  }

  lemma {:induction false} OwnedEver(states: seq<State>, events: seq<Event>, n: nat)
    requires Run(states, events) && n < |states|
    requires forall e :: e in events ==> Unbroken(e)
    ensures Owned(states[n])
    decreases n
  {
    if n > 0 {
      OwnedEver(states, events, n - 1);
      StepKeepsOwned(states[n - 1], events[n - 1], states[n]);
    }
  }

  /** At most one caller per key ever triggers the dispatch, in every execution; exactly one once some
      call used the key, no call failed, nothing died, and the callers are through. */
  lemma OneTriggerPerKey(states: seq<State>, events: seq<Event>, key: string, n: nat)
    requires Run(states, events) && n < |states|
    ensures Triggers(states, events, key, n) <= 1
    ensures
      && (forall e :: e in events ==> Unbroken(e))
      && (forall p :: p in states[n].procs ==> !states[n].procs[p].Caller?)
      && (exists c :: c in states[n].calls && states[n].calls[c].key == Some(key))
      ==> Triggers(states, events, key, n) == 1
  {
    TriggersCount(states, events, key, n);
    if (forall e :: e in events ==> Unbroken(e))
       && (forall p :: p in states[n].procs ==> !states[n].procs[p].Caller?)
       && (exists c :: c in states[n].calls && states[n].calls[c].key == Some(key))
    {
      OwnedEver(states, events, n);
      AdmittedEver(states, events, n);
      var c :| c in states[n].calls && states[n].calls[c].key == Some(key);
      assert Answered(states[n], c);
      var r := states[n].calls[c].returned.value;
      assert OwnerDone(states[n], r);
      assert TriggeredBy(states[n], key, r);
    }
  }
}
