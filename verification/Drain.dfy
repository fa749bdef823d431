/** Left alone, the service comes to rest: with the dispatches of each row not overlapping and nothing
    breaking, only so many dispatches, and so many steps, are left. */
module Drain {
  import opened Domain
  import opened Backoff
  import opened Repository
  import opened Protocol
  import opened Totals
  import Carriers
  import Retries

  /** Steps that work off what is there: no new call, sweep, redelivery or read mark. */
  predicate Working(e: Event) {
    match e
    case Trigger(_, _) => true
    case SweepTrigger(_, _, _) => true
    case Deliver(_, _) => true
    case Expire(_) => true
    case Fire(_) => true
    case Advance(_, o, _) => o.fault == Fine
    case Finish(_) => true
    case _ => false
  }

  function Spare(row: Row): nat {
    if Active(row) && row.retryCount <= MAX_RETRIES then MAX_RETRIES - row.retryCount else 0
  }

  ghost function ProcWork(procs: map<Pid, Proc>, owed: Proc -> nat): map<Pid, nat> {
    map p | p in procs :: owed(procs[p])
  }

  /** The retries every unfinished row has left. */
  ghost function Spares(rows: map<Id, Row>): map<Id, nat> {
    map id | id in rows :: Spare(rows[id])
  }

  // ----- Dispatches left -----

  /** What will be dispatched again once, whatever else happens. */
  function DispatchesOwed(proc: Proc): nat {
    match proc
    case Timer(_) => 1
    case Caller(_) => 1
    case Sweeper(due) => |due|
    case Dispatching(_, _, pc) => if pc.Load? || pc.WritePending? || pc.Publish? then 1 else 0
  }

  /** The carriers, and the retries the unfinished rows have left. */
  ghost function DispatchesLeft(s: State): nat {
    Total(ProcWork(s.procs, DispatchesOwed)) + |s.dispatchQ| + |s.retryQ| + Total(Spares(s.rows))
  }

  // ----- Steps left -----

  function StepsOwed(proc: Proc): nat {
    match proc
    case Timer(_) => 6
    case Caller(_) => 7
    case Sweeper(due) => 1 + 7 * |due|
    case Dispatching(_, _, pc) =>
      match pc
      case Load => 5
      case Mark(_) => 4
      case Sending(_) => 3
      case WriteSent(_) => 2
      case WriteFailed(_, _) => 2
      case Increment(_, _) => 2
      case WritePending(_, _) => 10
      case Publish(_) => 9
      case Done(_) => 1
  }

  ghost function StepsLeft(s: State): nat {
    Total(ProcWork(s.procs, StepsOwed)) + 6 * |s.dispatchQ| + 7 * |s.retryQ| + 9 * Total(Spares(s.rows))
  }

  // ----- How single changes move the sums -----

  lemma ProcChange(procs: map<Pid, Proc>, p: Pid, proc: Proc, owed: Proc -> nat)
    ensures Total(ProcWork(procs[p := proc], owed)) + (if p in procs then owed(procs[p]) else 0)
         == Total(ProcWork(procs, owed)) + owed(proc)
  {
    Put(ProcWork(procs, owed), p, owed(proc));
    assert ProcWork(procs[p := proc], owed) == ProcWork(procs, owed)[p := owed(proc)];
  }

  lemma ProcEnd(procs: map<Pid, Proc>, p: Pid, owed: Proc -> nat)
    requires p in procs
    ensures Total(ProcWork(procs, owed)) == Total(ProcWork(procs - {p}, owed)) + owed(procs[p])
  {
    TakeOut(ProcWork(procs, owed), p);
    assert ProcWork(procs - {p}, owed) == ProcWork(procs, owed) - {p};
  }

  lemma RowChange(rows: map<Id, Row>, id: Id, row: Row)
    requires id in rows
    ensures Total(Spares(rows[id := row])) + Spare(rows[id]) == Total(Spares(rows)) + Spare(row)
  {
    Put(Spares(rows), id, Spare(row));
    assert Spares(rows[id := row]) == Spares(rows)[id := Spare(row)];
  }

  predicate IsLoad(s: State, e: Event) {
    e.Advance? && e.p in s.procs && s.procs[e.p].Dispatching? && s.procs[e.p].pc.Load?
  }

  /** The process table after the dispatch step: the dispatch moved, and maybe a timer more. */
  lemma AdvanceProcs(s: State, e: Event, s': State, owed: Proc -> nat)
    requires e.Advance? && AdvanceStep(s, e, s')
    ensures Total(ProcWork(s'.procs, owed)) + owed(s.procs[e.p])
         == Total(ProcWork(s.procs, owed)) + owed(s'.procs[e.p])
            + (if s.procs[e.p].pc.Publish? && !e.o.published then owed(Timer(s.procs[e.p].id)) else 0)
  {
    var moved := s.procs[e.p := s'.procs[e.p]];
    ProcChange(s.procs, e.p, s'.procs[e.p], owed);
    ProcChange(moved, e.q, Timer(s.procs[e.p].id), owed);
  }

  /** A statement of a dispatch that holds its row uses up a spare retry if it is the increment. */
  lemma SpareAfter(row: Row, pc: Pc, now: int, dbNow: int)
    requires Active(row) && Statement(pc, now).Some?
    requires pc.Increment? ==> 0 <= row.retryCount < MAX_RETRIES
    ensures var row' := Written(row, Statement(pc, now).value, dbNow);
      Spare(row') + (if pc.Increment? then 1 else 0) <= Spare(row)
  {
  }

  lemma AdvanceRows(s: State, e: Event, s': State)
    requires Retries.Steady(s) && e.Advance? && AdvanceStep(s, e, s') && e.o.fault == Fine
    requires forall id :: id in s.rows ==> s.rows[id].retryCount >= 0
    ensures Total(Spares(s'.rows)) + (if s.procs[e.p].pc.Increment? then 1 else 0) <= Total(Spares(s.rows))
  {
    var d := s.procs[e.p];
    var w := Statement(d.pc, e.o.now);
    if w.Some? {
      assert Retries.Underway(s.procs, e.p) && Retries.Holds(s, e.p);
      var row := s.rows[d.id];
      SpareAfter(row, d.pc, e.o.now, e.o.dbNow);
      RowChange(s.rows, d.id, Written(row, w.value, e.o.dbNow));
    }
  }

  lemma AdvanceUsesUp(s: State, e: Event, s': State)
    requires Retries.Steady(s) && e.Advance? && AdvanceStep(s, e, s') && e.o.fault == Fine
    requires forall id :: id in s.rows ==> s.rows[id].retryCount >= 0
    ensures DispatchesLeft(s') + (if IsLoad(s, e) then 1 else 0) <= DispatchesLeft(s)
    ensures StepsLeft(s') < StepsLeft(s)
  {
    AdvanceProcs(s, e, s', DispatchesOwed);
    AdvanceProcs(s, e, s', StepsOwed);
    AdvanceRows(s, e, s');
    var pc, pc' := s.procs[e.p].pc, s'.procs[e.p].pc;
    assert |s'.retryQ| == |s.retryQ| + if pc.Publish? && e.o.published then 1 else 0;
    AdvanceOwes(Lookup(s.rows, s.procs[e.p].id), s.procs[e.p], e.o);
  }

  /** The dispatch's own account: what the step takes from it, and what it adds elsewhere. */
  lemma AdvanceOwes(row: Option<Row>, d: Proc, o: Outcome)
    requires d.Dispatching? && !d.pc.Done? && o.fault == Fine
    ensures var d' := d.(pc := NextPc(row, d.pc, o));
      && DispatchesOwed(d') + (if d.pc.Publish? || d.pc.Load? then 1 else 0)
         <= DispatchesOwed(d) + (if d.pc.Increment? then 1 else 0)
      && StepsOwed(d') + (if d.pc.Publish? then 7 else 0) < StepsOwed(d) + (if d.pc.Increment? then 9 else 0)
  {
  }

  /** The other working steps only pass on what is owed: a process ends, */
  lemma PassOnEnd(s: State, e: Event, s': State)
    requires Step(s, e, s') && (e.Finish? || (e.Trigger? && e.published))
    ensures DispatchesLeft(s') <= DispatchesLeft(s) && StepsLeft(s') < StepsLeft(s)
  {
    ProcEnd(s.procs, e.p, DispatchesOwed);
    ProcEnd(s.procs, e.p, StepsOwed);
    assert s'.procs == s.procs - {e.p};
  }

  /** becomes a dispatch, */
  lemma PassOnStart(s: State, e: Event, s': State)
    requires Step(s, e, s') && (e.Fire? || (e.Trigger? && !e.published))
    ensures DispatchesLeft(s') <= DispatchesLeft(s) && StepsLeft(s') < StepsLeft(s)
  {
    var d := Dispatching(s.procs[e.p].id, Spawned, Load);
    ProcChange(s.procs, e.p, d, DispatchesOwed);
    ProcChange(s.procs, e.p, d, StepsOwed);
    assert s'.procs == s.procs[e.p := d];
  }

  /** hands out the next row, */
  lemma PassOnSweep(s: State, e: Event, s': State)
    requires Step(s, e, s') && e.SweepTrigger?
    ensures DispatchesLeft(s') <= DispatchesLeft(s) && StepsLeft(s') < StepsLeft(s)
  {
    var rest, d := Sweeper(s.procs[e.p].due[1..]), Dispatching(s.procs[e.p].due[0], Spawned, Load);
    var procs := s.procs[e.p := rest];
    SweepShrinks(s.procs, e.p, rest, d);
    if e.published {
      assert s'.procs == procs;
    } else {
      ProcChange(procs, e.q, d, DispatchesOwed);
      ProcChange(procs, e.q, d, StepsOwed);
      assert s'.procs == procs[e.q := d];
    }
  }

  lemma SweepShrinks(procs: map<Pid, Proc>, p: Pid, rest: Proc, d: Proc)
    requires p in procs && procs[p].Sweeper? && procs[p].due != [] && rest == Sweeper(procs[p].due[1..])
    requires d.Dispatching? && d.pc.Load?
    ensures Total(ProcWork(procs[p := rest], DispatchesOwed)) + 1 == Total(ProcWork(procs, DispatchesOwed))
    ensures Total(ProcWork(procs[p := rest], StepsOwed)) + 7 == Total(ProcWork(procs, StepsOwed))
    ensures DispatchesOwed(d) == 1 && StepsOwed(d) == 5
  {
    ProcChange(procs, p, rest, DispatchesOwed);
    ProcChange(procs, p, rest, StepsOwed);
  }

  /** or is started by a delivery or fed by an expiring retry. */
  lemma PassOnDelivery(s: State, e: Event, s': State)
    requires Step(s, e, s') && e.Deliver?
    ensures DispatchesLeft(s') <= DispatchesLeft(s) && StepsLeft(s') < StepsLeft(s)
  {
    var d := Dispatching(e.id, Delivery, Load);
    ProcChange(s.procs, e.q, d, DispatchesOwed);
    ProcChange(s.procs, e.q, d, StepsOwed);
    assert s'.procs == s.procs[e.q := d];
    assert |s'.dispatchQ| == |s.dispatchQ| - 1;
  }

  lemma PassOnExpiry(s: State, e: Event, s': State)
    requires Step(s, e, s') && e.Expire?
    ensures DispatchesLeft(s') <= DispatchesLeft(s) && StepsLeft(s') < StepsLeft(s)
  {
    assert |s'.retryQ| == |s.retryQ| - 1 && |s'.dispatchQ| == |s.dispatchQ| + 1;
  }

  ghost function Loads(states: seq<State>, events: seq<Event>, n: nat): nat
    requires n <= |events| < |states|
  {
    if n == 0 then 0
    else Loads(states, events, n - 1) + if IsLoad(states[n - 1], events[n - 1]) then 1 else 0
  }

  ghost predicate Sound(s: State) {
    Retries.Steady(s) && forall id :: id in s.rows ==> s.rows[id].retryCount >= 0
  }

  lemma StepKeepsSteady(s: State, e: Event, s': State)
    requires Retries.Steady(s) && Retries.Overlapping(s, 1) && Retries.Overlapping(s', 1) && Step(s, e, s')
    ensures Retries.Steady(s')
  {
    forall p | Retries.Underway(s'.procs, p)
      ensures Retries.Holds(s', p)
    {
      var id := s'.procs[p].id;
      assert Retries.Narrow(s, id, 1) && Retries.Narrow(s', id, 1);
      Retries.StepKeepsSteady(s, e, s', id);
    }
  }

  lemma StepKeepsSound(s: State, e: Event, s': State)
    requires Sound(s) && Retries.Overlapping(s, 1) && Retries.Overlapping(s', 1) && Step(s, e, s') && Working(e)
    ensures Sound(s')
  {
    StepKeepsSteady(s, e, s');
    if !e.Advance? {
      Retries.OthersAreQuiet(s, e, s');
    }
  }

  lemma {:induction false} SoundAlong(states: seq<State>, events: seq<Event>, n: nat)
    requires Execution(states, events) && Retries.Serialised(states) && Sound(states[0])
    requires forall e :: e in events ==> Working(e)
    requires n < |states|
    ensures Sound(states[n])
    decreases n
  {
    if n > 0 {
      SoundAlong(states, events, n - 1);
      StepKeepsSound(states[n - 1], events[n - 1], states[n]);
    }
  }

  /** From any reachable state on, however the rows' dispatches interleave and whatever the providers,
      templates and broker answer: at most one dispatch more per carrier and per retry the unfinished
      rows have left, and at most `StepsLeft` steps. */
  lemma {:induction false} DrainBound(states: seq<State>, events: seq<Event>, n: nat)
    requires Execution(states, events) && Retries.Serialised(states) && Sound(states[0])
    requires forall e :: e in events ==> Working(e)
    requires n < |states|
    ensures Loads(states, events, n) + DispatchesLeft(states[n]) <= DispatchesLeft(states[0])
    ensures n + StepsLeft(states[n]) <= StepsLeft(states[0])
    decreases n
  {
    if n > 0 {
      DrainBound(states, events, n - 1);
      SoundAlong(states, events, n - 1);
      WorkingStep(states[n - 1], events[n - 1], states[n]);
    }
  }

  lemma WorkingStep(s: State, e: Event, s': State)
    requires Sound(s) && Step(s, e, s') && Working(e)
    ensures DispatchesLeft(s') + (if IsLoad(s, e) then 1 else 0) <= DispatchesLeft(s)
    ensures StepsLeft(s') < StepsLeft(s)
  {
    match e
    case Advance(_, _, _) => AdvanceUsesUp(s, e, s');
    case Trigger(_, published) => if published { PassOnEnd(s, e, s'); } else { PassOnStart(s, e, s'); }
    case Fire(_) => PassOnStart(s, e, s');
    case Finish(_) => PassOnEnd(s, e, s');
    case SweepTrigger(_, _, _) => PassOnSweep(s, e, s');
    case Deliver(_, _) => PassOnDelivery(s, e, s');
    case Expire(_) => PassOnExpiry(s, e, s');
  }

  /** What a queue call adds: 6 dispatches and 52 steps at most, nothing when the key was taken. */
  lemma QueueCost(s: State, e: Event, s': State)
    requires e.Queue? && QueueStep(s, e, s')
    ensures var made, waits := e.newId in s'.rows, e.q in s'.procs;
      && DispatchesLeft(s') == DispatchesLeft(s) + (if made then 5 else 0) + (if waits then 1 else 0)
      && StepsLeft(s') == StepsLeft(s) + (if made then 45 else 0) + (if waits then 7 else 0)
    ensures e.newId in s'.rows <==> e.fault != Unapplied && !KeyTaken(s.rows, e.request.key)
    ensures e.q in s'.procs <==> e.newId in s'.rows && e.fault == Fine
  {
    if e.q in s'.procs {
      ProcChange(s.procs, e.q, Caller(e.newId), DispatchesOwed);
      ProcChange(s.procs, e.q, Caller(e.newId), StepsOwed);
    }
    if e.newId in s'.rows {
      Put(Spares(s.rows), e.newId, 5);
      assert Spares(s'.rows) == Spares(s.rows)[e.newId := 5];
    }
  }

  ghost predicate AtRest(s: State) {
    s.procs == map[] && s.dispatchQ == multiset{} && s.retryQ == multiset{}
  }

  ghost predicate CallersKnown(s: State) {
    forall p :: p in s.procs && s.procs[p].Caller? ==> s.procs[p].id in s.calls
  }

  /** No step makes another caller than the queue call, and none forgets a call. */
  lemma StepKeepsKnown(s: State, e: Event, s': State)
    requires CallersKnown(s) && Step(s, e, s')
    ensures CallersKnown(s')
  {
    if !e.Queue? {
      NoNewCallers(s, e, s');
    }
  }

  lemma NoNewCallers(s: State, e: Event, s': State)
    requires Step(s, e, s') && !e.Queue?
    ensures s.calls.Keys <= s'.calls.Keys
    ensures forall p :: p in s'.procs && s'.procs[p].Caller? ==> p in s.procs && s'.procs[p] == s.procs[p]
  {
  }

  /** A dispatch past its load goes on: no row's dispatches come to overlap by it. */
  lemma HolderGoesOn(s: State, p: Pid, q: Pid) returns (e: Event, s': State)
    requires Retries.Underway(s.procs, p) && q !in s.procs && Retries.Overlapping(s, 1)
    ensures Working(e) && Step(s, e, s') && Retries.Overlapping(s', 1)
  {
    e, s' := StepOf(s, p, q);
    forall id
      ensures Retries.Narrow(s', id, 1)
    {
      assert Retries.Narrow(s, id, 1);
      Retries.AdvanceMovesOne(s, e, s', id, Retries.Holding);
    }
  }

  /** With no dispatch past its load, every working step leaves one of them there at most. */
  lemma FreeStepIsSerial(s: State, e: Event, s': State)
    requires forall p :: !Retries.Underway(s.procs, p)
    requires Working(e) && Step(s, e, s')
    ensures Retries.Overlapping(s', 1)
  {
    forall id
      ensures Retries.Narrow(s', id, 1)
    {
      assert forall p :: p in At(s.procs, id, Retries.Holding) ==> Retries.Underway(s.procs, p);
      assert At(s.procs, id, Retries.Holding) == {};
      if e.Advance? {
        Retries.AdvanceMovesOne(s, e, s', id, Retries.Holding);
      } else {
        Retries.OthersAreQuiet(s, e, s');
        Retries.QuietKeepsPlaces(s, s', id, Retries.Holding);
      }
    }
  }

  lemma SomeStep(s: State, q: Pid) returns (e: Event, s': State)
    requires !AtRest(s) && CallersKnown(s) && q !in s.procs
    ensures Working(e) && Step(s, e, s')
  {
    if s.dispatchQ != multiset{} {
      var id :| id in s.dispatchQ;
      e := Deliver(id, q);
      s' := s.(dispatchQ := s.dispatchQ - multiset{id}, procs := s.procs[q := Dispatching(id, Delivery, Load)]);
    } else if s.retryQ != multiset{} {
      var id :| id in s.retryQ;
      e := Expire(id);
      s' := s.(retryQ := s.retryQ - multiset{id}, dispatchQ := s.dispatchQ + multiset{id});
    } else {
      var p :| p in s.procs;
      e, s' := StepOf(s, p, q);
    }
  }

  /** Unless everything is at rest, some working step can be taken that lets no dispatches of a row overlap:
      a state in which such work stops is at rest. */
  lemma NeverStuck(s: State) returns (e: Event, s': State)
    requires !AtRest(s) && CallersKnown(s) && Retries.Overlapping(s, 1)
    ensures Working(e) && Step(s, e, s') && Retries.Overlapping(s', 1)
  {
    var q: Pid := FreshPid(s.procs);
    if p :| Retries.Underway(s.procs, p) {
      e, s' := HolderGoesOn(s, p, q);
    } else {
      e, s' := SomeStep(s, q);
      FreeStepIsSerial(s, e, s');
    }
  }

  lemma StepOf(s: State, p: Pid, q: Pid) returns (e: Event, s': State)
    requires p in s.procs && q !in s.procs
    requires s.procs[p].Caller? ==> s.procs[p].id in s.calls
    ensures Working(e) && Step(s, e, s')
    ensures Retries.Underway(s.procs, p) ==> e.Advance? && e.p == p
  {
    match s.procs[p]
    case Timer(id) =>
      e := Fire(p);
      s' := s.(procs := s.procs[p := Dispatching(id, Spawned, Load)]);
    case Caller(id) =>
      e := Trigger(p, true);
      s' := s.(calls := s.calls[id := s.calls[id].(triggered := true)],
               dispatchQ := s.dispatchQ + multiset{id}, procs := s.procs - {p});
    case Sweeper(due) =>
      if due == [] {
        e := Finish(p);
        s' := s.(procs := s.procs - {p});
      } else {
        e := SweepTrigger(p, true, q);
        s' := s.(dispatchQ := s.dispatchQ + multiset{due[0]}, procs := s.procs[p := Sweeper(due[1..])]);
      }
    case Dispatching(id, origin, pc) =>
      if pc.Done? {
        e := Finish(p);
        s' := s.(procs := s.procs - {p});
      } else {
        var o := Outcome(Fine, Ok(""), Ok(""), {}, true, 0, 0);
        e := Advance(p, o, q);
        s' := s.(rows := NextRows(s.rows, id, pc, o),
                 book := Recorded(s.book, id, pc, o),
                 retryQ := if pc.Publish? then s.retryQ + multiset{id} else s.retryQ,
                 procs := s.procs[p := s.procs[p].(pc := NextPc(Lookup(s.rows, id), pc, o))]);
      }
  }

  /** The service writes no status but these four. */
  predicate Reached(row: Row) {
    row.status == Pending || row.status == Processing || row.status == Sent || row.status == PermanentFailure
  }

  ghost predicate StatusesReached(s: State) {
    forall id :: id in s.rows ==> Reached(s.rows[id])
  }

  lemma StepKeepsReached(s: State, e: Event, s': State)
    requires StatusesReached(s) && Step(s, e, s')
    ensures StatusesReached(s')
  {
    if e.Advance? {
      var w := Statement(s.procs[e.p].pc, e.o.now);
      assert w.Some? && w.value.SetStatus? ==> w.value.status in {Processing, Sent, PermanentFailure, Pending};
    } else {
      OtherRowsReached(s, e, s');
    }
  }

  lemma OtherRowsReached(s: State, e: Event, s': State)
    requires StatusesReached(s) && Step(s, e, s') && !e.Advance?
    ensures StatusesReached(s')
  {
    forall id | id in s'.rows
      ensures Reached(s'.rows[id])
    {
      if e.Reset? {
        assert s'.rows[id] == Unstuck(s.rows[id], e.threshold, e.dbNow);
      } else if e.Queue? {
        assert id in s.rows || s'.rows[id] == Inserted(e.request);
      } else if !e.MarkRead? {
        assert s'.rows == s.rows;
      }
    }
  }

  /** Nothing is broken: no overlapping dispatches, no orphaned row, and what every run keeps. */
  ghost predicate Ready(s: State) {
    && Sound(s) && Retries.Overlapping(s, 1) && Carriers.NoOrphan(s)
    && CallersKnown(s) && StatusesReached(s)
  }

  lemma RowsStay(s: State, e: Event, s': State)
    requires Step(s, e, s') && Working(e)
    ensures s'.rows.Keys == s.rows.Keys && Carriers.Smooth(e)
  {
  }

  lemma StepKeepsReady(s: State, e: Event, s': State)
    requires Ready(s) && Step(s, e, s') && Working(e) && Retries.Overlapping(s', 1)
    ensures Ready(s') && s'.rows.Keys == s.rows.Keys
  {
    RowsStay(s, e, s');
    StepKeepsSound(s, e, s');
    Carriers.StepKeepsNoOrphan(s, e, s');
    StepKeepsKnown(s, e, s');
    StepKeepsReached(s, e, s');
  }

  lemma {:induction false} EverKnown(states: seq<State>, events: seq<Event>, n: nat)
    requires Run(states, events) && n < |states|
    ensures CallersKnown(states[n]) && StatusesReached(states[n])
    decreases n
  {
    if n > 0 {
      EverKnown(states, events, n - 1);
      StepKeepsKnown(states[n - 1], events[n - 1], states[n]);
      StepKeepsReached(states[n - 1], events[n - 1], states[n]);
    }
  }

  /** The dispatches of the row have not overlapped so far, or none of them is past its load. */
  ghost predicate Untangled(states: seq<State>, n: nat, id: Id)
    requires n < |states|
  {
    Retries.NarrowUntil(states, id, 1, n) || Retries.Narrow(states[n], id, 0)
  }

  lemma UntangledIsSteady(states: seq<State>, events: seq<Event>, n: nat, id: Id)
    requires Run(states, events) && n < |states| && Untangled(states, n, id)
    ensures Retries.SteadyRow(states[n], id) && Retries.Narrow(states[n], id, 1)
  {
    if Retries.NarrowUntil(states, id, 1, n) {
      Retries.SerialisedEver(states, events, n, id);
    } else {
      var s := states[n];
      assert At(s.procs, id, Retries.Holding) == {};
      forall p | Retries.Underway(s.procs, p)
        ensures s.procs[p].id != id
      {
        assert p !in At(s.procs, id, Retries.Holding);
      }
    }
  }

  /** A state of any run is ready as soon as no row is orphaned in it and none is in the hands of dispatches that
      have overlapped, whatever overlapped, failed or crashed before. */
  lemma RunsAreReady(states: seq<State>, events: seq<Event>, n: nat)
    requires Run(states, events) && n < |states|
    requires Carriers.NoOrphan(states[n]) && forall id :: Untangled(states, n, id)
    ensures Ready(states[n])
  {
    var s := states[n];
    forall id
      ensures Retries.Narrow(s, id, 1) && Retries.SteadyRow(s, id)
    {
      UntangledIsSteady(states, events, n, id);
    }
    forall p | Retries.Underway(s.procs, p)
      ensures Retries.Holds(s, p)
    {
      assert Retries.SteadyRow(s, s.procs[p].id);
    }
    EverKnown(states, events, n);
    forall id | id in s.rows
      ensures s.rows[id].retryCount >= 0
    {
      Retries.NonNegative(states, events, n, id);
    }
  }

  /** At rest every row has had its outcome. */
  lemma RestMeansFinished(s: State, id: Id)
    requires Ready(s) && AtRest(s) && id in s.rows
    ensures s.rows[id].status == Sent || s.rows[id].status == PermanentFailure
  {
    assert Carriers.Kept(s, id);
    assert Reached(s.rows[id]);
  }

  lemma {:induction false} ReadyAlong(states: seq<State>, events: seq<Event>, n: nat)
    requires Execution(states, events) && Retries.Serialised(states) && Ready(states[0])
    requires forall e :: e in events ==> Working(e)
    requires n < |states|
    ensures Ready(states[n]) && states[n].rows.Keys == states[0].rows.Keys
    decreases n
  {
    if n > 0 {
      ReadyAlong(states, events, n - 1);
      StepKeepsReady(states[n - 1], events[n - 1], states[n]);
    }
  }

  /** `more` goes on where `some` ends. */
  ghost predicate Continues(some: seq<State>, done: seq<Event>, more: seq<State>, events: seq<Event>) {
    some <= more && done <= events
  }

  lemma OneStepMore(states: seq<State>, events: seq<Event>, e: Event, s': State)
    requires Execution(states, events) && Retries.Serialised(states)
    requires Step(states[|events|], e, s') && Retries.Overlapping(s', 1)
    ensures Execution(states + [s'], events + [e]) && Retries.Serialised(states + [s'])
  {
    var states', events' := states + [s'], events + [e];
    forall i | 0 <= i < |events'|
      ensures Step(states'[i], events'[i], states'[i + 1])
    {
    }
  }

  /** The drain: any work done without overlaps from a ready state can go on until everything is at rest, stays
      within the steps left at its start however it goes on, and has then brought each row to Sent or to
      PermanentFailure, whatever providers, templates and broker answered. */
  lemma {:induction false} Drains(states: seq<State>, events: seq<Event>)
    returns (states': seq<State>, events': seq<Event>)
    requires Execution(states, events) && Retries.Serialised(states) && Ready(states[0])
    requires forall e :: e in events ==> Working(e)
    ensures Continues(states, events, states', events')
    ensures Execution(states', events') && Retries.Serialised(states')
    ensures forall e :: e in events' ==> Working(e)
    ensures |events'| <= StepsLeft(states[0])
    ensures Loads(states', events', |events'|) <= DispatchesLeft(states[0])
    ensures var end := states'[|events'|];
      && AtRest(end) && end.rows.Keys == states[0].rows.Keys
      && (forall id :: id in end.rows ==> end.rows[id].status == Sent || end.rows[id].status == PermanentFailure)
    decreases StepsLeft(states[|events|])
  {
    var s := states[|events|];
    ReadyAlong(states, events, |events|);
    DrainBound(states, events, |events|);
    if AtRest(s) {
      states', events' := states, events;
      forall id | id in s.rows
        ensures s.rows[id].status == Sent || s.rows[id].status == PermanentFailure
      {
        RestMeansFinished(s, id);
      }
    } else {
      var e, s' := NeverStuck(s);
      WorkingStep(s, e, s');
      OneStepMore(states, events, e, s');
      states', events' := Drains(states + [s'], events + [e]);
    }
  }
}
