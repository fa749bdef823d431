/** How often a row is tried. The send ledger and the retry bound hold under full interleaving, with
    crashes and failing repository calls; the rest needs the dispatches of a row not to overlap. */
module Retries {
  import opened Domain
  import opened Backoff
  import opened Repository
  import opened Protocol

  /** Past its load and before its end: this dispatch may still write its row. */
  predicate Holding(pc: Pc) {
    !pc.Load? && !pc.Done?
  }

  /** Has seen a retry count below the maximum and may still increment it. */
  predicate Armed(pc: Pc) {
    pc.Increment? || ((pc.Mark? || pc.Sending?) && pc.snap.retryCount < MAX_RETRIES)
  }

  ghost function RetryCount(s: State, id: Id): int {
    if id in s.rows then s.rows[id].retryCount else 0
  }

  // ----- How a step moves dispatches between positions -----

  predicate Underway(procs: map<Pid, Proc>, p: Pid) {
    p in procs && procs[p].Dispatching? && Holding(procs[p].pc)
  }

  /** What a sweep's reset and the read marks leave alone. */
  predicate SameProgress(row: Row, row': Row) {
    && row'.retryCount == row.retryCount && row'.sentAt == row.sentAt
    && (Active(row') <==> Active(row)) && (row'.status == Sent <==> row.status == Sent)
    && (!Active(row) ==> OnlyRead(row, row'))
  }

  predicate OnlyRead(row: Row, row': Row) {
    row' == row.(readAt := row'.readAt, updatedAt := row'.updatedAt)
  }

  predicate Newborn(row: Row) {
    Active(row) && row.retryCount == 0 && row.sentAt.None?
  }

  /** A step that moves no dispatch between its load and its end, and no row along its life cycle. */
  ghost predicate Quiet(s: State, s': State) {
    && s'.book == s.book
    && (forall p :: Underway(s'.procs, p) <==> Underway(s.procs, p))
    && (forall p :: Underway(s.procs, p) ==>
          s'.procs[p].id == s.procs[p].id && s'.procs[p].pc == s.procs[p].pc)
    && (forall id :: id in s.rows ==> id in s'.rows && SameProgress(s.rows[id], s'.rows[id]))
    && (forall id :: id in s'.rows && id !in s.rows ==> Newborn(s'.rows[id]))
  }

  lemma QueueIsQuiet(s: State, e: Event, s': State)
    requires e.Queue? && QueueStep(s, e, s')
    ensures Quiet(s, s')
  {
  }

  lemma MarkReadIsQuiet(s: State, e: Event, s': State)
    requires e.MarkRead? && Step(s, e, s')
    ensures Quiet(s, s')
  {
  }

  lemma ResetIsQuiet(s: State, e: Event, s': State)
    requires e.Reset? && Step(s, e, s')
    ensures Quiet(s, s')
  {
    forall id | id in s.rows
      ensures SameProgress(s.rows[id], s'.rows[id])
    {
      assert s'.rows[id] == Unstuck(s.rows[id], e.threshold, e.dbNow);
    }
  }

  lemma TriggerIsQuiet(s: State, e: Event, s': State)
    requires Step(s, e, s') && (e.Trigger? || e.SweepTrigger? || e.Fetch?)
    ensures Quiet(s, s')
  {
    assert s'.rows == s.rows && s'.book == s.book;
  }

  lemma DeliveryIsQuiet(s: State, e: Event, s': State)
    requires Step(s, e, s') && (e.Deliver? || e.Expire? || e.Fire?)
    ensures Quiet(s, s')
  {
    assert s'.rows == s.rows && s'.book == s.book;
  }

  lemma EndIsQuiet(s: State, e: Event, s': State)
    requires Step(s, e, s') && (e.Finish? || e.Detach?)
    ensures Quiet(s, s')
  {
    assert s'.rows == s.rows && s'.book == s.book;
  }

  lemma OthersAreQuiet(s: State, e: Event, s': State)
    requires Step(s, e, s') && !e.Advance? && !e.Crash?
    ensures Quiet(s, s')
  {
    match e
    case Queue(_, _, _, _, _) => QueueIsQuiet(s, e, s');
    case Reset(_, _) => ResetIsQuiet(s, e, s');
    case MarkRead(_, _) => MarkReadIsQuiet(s, e, s');
    case Trigger(_, _) => TriggerIsQuiet(s, e, s');
    case SweepTrigger(_, _, _) => TriggerIsQuiet(s, e, s');
    case Fetch(_, _, _, _) => TriggerIsQuiet(s, e, s');
    case Finish(_) => EndIsQuiet(s, e, s');
    case Detach(_) => EndIsQuiet(s, e, s');
    case _ => DeliveryIsQuiet(s, e, s');
  }

  lemma QuietKeepsPlaces(s: State, s': State, id: Id, at: Pc -> bool)
    requires Quiet(s, s') && forall pc :: at(pc) ==> Holding(pc)
    ensures At(s'.procs, id, at) == At(s.procs, id, at)
  {
    forall p
      ensures p in At(s'.procs, id, at) <==> p in At(s.procs, id, at)
    {
      assert Underway(s'.procs, p) <==> Underway(s.procs, p);
    }
  }

  lemma AdvanceMovesOne(s: State, e: Event, s': State, id: Id, at: Pc -> bool)
    requires e.Advance? && AdvanceStep(s, e, s')
    ensures |At(s'.procs, id, at)|
         == |At(s.procs, id, at)| + (if IsAt(s'.procs[e.p], id, at) then 1 else 0)
            - (if IsAt(s.procs[e.p], id, at) then 1 else 0)
  {
    var d := s.procs[e.p];
    var moved := s.procs[e.p := s'.procs[e.p]];
    Replaced(s.procs, e.p, s'.procs[e.p], id, at);
    Replaced(moved, e.q, Timer(d.id), id, at);
  }

  lemma Overlap(procs: map<Pid, Proc>, id: Id, at: Pc -> bool, p: Pid, q: Pid)
    requires p != q && p in At(procs, id, at) && q in At(procs, id, at)
    ensures |At(procs, id, at)| >= 2
  {
    assert {p, q} <= At(procs, id, at);
    assert |At(procs, id, at) - {p, q}| == |At(procs, id, at)| - |{p, q}|;
  }

  lemma Fewer(procs: map<Pid, Proc>, id: Id, at: Pc -> bool, wider: Pc -> bool)
    requires forall pc :: at(pc) ==> wider(pc)
    ensures |At(procs, id, at)| <= |At(procs, id, wider)|
  {
    var few, many := At(procs, id, at), At(procs, id, wider);
    assert few <= many;
    assert many == few + (many - few);
  }

  // ----- What every execution keeps -----

  /** Dispatches past their load work on existing rows. */
  ghost predicate Grounded(s: State) {
    forall p :: p in s.procs && s.procs[p].Dispatching? && Holding(s.procs[p].pc) ==> s.procs[p].id in s.rows
  }

  /** Every provider call is paid for: by a counted retry, by a terminal write, by having been cut off,
      or by a dispatch that is about to write its outcome. */
  ghost predicate Paid(s: State, id: Id) {
    s.book.sends[id] == RetryCount(s, id) + s.book.finals[id] + s.book.lost[id] + |At(s.procs, id, AfterSend)|
  }

  ghost predicate Balanced(s: State) {
    forall id :: Paid(s, id)
  }

  /** An accepted provider call ends in a terminal write, is cut off, or is about to be written. */
  ghost predicate SettledRow(s: State, id: Id) {
    s.book.oks[id] <= s.book.finals[id] + s.book.lostOks[id] + |At(s.procs, id, AtWriteSent)|
  }

  ghost predicate Settled(s: State) {
    && (forall id :: SettledRow(s, id))
    && (forall id, t :: s.book.pushes[(id, t)] <= s.book.oks[id] + s.book.cut[id])
  }

  lemma StepKeepsGrounded(s: State, e: Event, s': State)
    requires Grounded(s) && Step(s, e, s')
    ensures Grounded(s')
  {
    if !e.Advance? && !e.Crash? {
      OthersAreQuiet(s, e, s');
    }
  }

  /** The retry count of a row changes by one armed dispatch's increment only. */
  lemma AdvanceRetryCount(s: State, e: Event, s': State, id: Id)
    requires Grounded(s) && e.Advance? && AdvanceStep(s, e, s')
    ensures RetryCount(s', id)
         == RetryCount(s, id)
            + if s.procs[e.p].id == id && s.procs[e.p].pc.Increment? && e.o.fault != Unapplied then 1 else 0
  {
  }

  lemma StepKeepsBalanced(s: State, e: Event, s': State)
    requires Grounded(s) && Balanced(s) && Step(s, e, s')
    ensures Balanced(s')
  {
    if e.Advance? {
      forall id {
        AdvanceBalances(s, e, s', id);
      }
    } else if e.Crash? {
      forall id
        ensures Paid(s', id)
      {
        Dropped(s.procs, e.killed, id, AfterSend);
        assert Paid(s, id) && CrashRecorded(s, e.killed, s'.book, id);
      }
    } else {
      OthersAreQuiet(s, e, s');
      QuietBalances(s, s');
    }
  }

  lemma QuietBalances(s: State, s': State)
    requires Balanced(s) && Quiet(s, s')
    ensures Balanced(s')
  {
    forall id
      ensures Paid(s', id)
    {
      QuietKeepsPlaces(s, s', id, AfterSend);
      assert Paid(s, id);
    }
  }

  lemma AdvanceBalances(s: State, e: Event, s': State, id: Id)
    requires Grounded(s) && Balanced(s) && e.Advance? && AdvanceStep(s, e, s')
    ensures Paid(s', id)
  {
    AdvanceRetryCount(s, e, s', id);
    AdvanceMovesOne(s, e, s', id, AfterSend);
    var d := s.procs[e.p];
    RecordedBalance(s.book, d.id, Lookup(s.rows, d.id), d.pc, e.o, id);
    assert Paid(s, id);
  }

  /** One entry in the ledger: a provider call opens a debt, which the step after it settles. */
  lemma RecordedBalance(book: Book, i: Id, row: Option<Row>, pc: Pc, o: Outcome, id: Id)
    requires !pc.Done?
    ensures var b := Recorded(book, i, pc, o);
      b.sends[id] + book.finals[id] + book.lost[id] + (if id == i && AfterSend(pc) then 1 else 0)
      == book.sends[id] + b.finals[id] + b.lost[id]
         + (if id == i && AfterSend(NextPc(row, pc, o)) then 1 else 0)
         + (if id == i && pc.Increment? && o.fault != Unapplied then 1 else 0)
  {
  }

  lemma PushCount(accepted: set<string>, id: Id, i: Id, t: string)
    ensures multiset(set u | u in accepted :: (id, u))[(i, t)] <= if i == id && accepted != {} then 1 else 0
  {
  }

  lemma StepKeepsSettled(s: State, e: Event, s': State)
    requires Settled(s) && Step(s, e, s')
    ensures Settled(s')
  {
    if e.Advance? {
      forall id {
        AdvanceSettles(s, e, s', id);
      }
      forall id, t {
        AdvancePushes(s, e, s', id, t);
      }
    } else if e.Crash? {
      CrashSettles(s, e, s');
    } else {
      OthersAreQuiet(s, e, s');
      forall id
        ensures SettledRow(s', id)
      {
        QuietKeepsPlaces(s, s', id, AtWriteSent);
        assert SettledRow(s, id);
      }
    }
  }

  lemma CrashSettles(s: State, e: Event, s': State)
    requires Settled(s) && e.Crash? && CrashStep(s, e, s')
    ensures Settled(s')
  {
    forall id
      ensures SettledRow(s', id)
    {
      Dropped(s.procs, e.killed, id, AtWriteSent);
      assert SettledRow(s, id) && CrashRecorded(s, e.killed, s'.book, id);
    }
    forall id, t
      ensures s'.book.pushes[(id, t)] <= s'.book.oks[id] + s'.book.cut[id]
    {
      assert CrashRecorded(s, e.killed, s'.book, id);
    }
  }

  lemma AdvanceSettles(s: State, e: Event, s': State, id: Id)
    requires Settled(s) && e.Advance? && AdvanceStep(s, e, s')
    ensures SettledRow(s', id)
  {
    AdvanceMovesOne(s, e, s', id, AtWriteSent);
    assert SettledRow(s, id);
    var d := s.procs[e.p];
    assert s'.book == Recorded(s.book, d.id, d.pc, e.o);
    assert s'.procs[e.p].pc == NextPc(Lookup(s.rows, d.id), d.pc, e.o);
  }

  lemma AdvancePushes(s: State, e: Event, s': State, id: Id, t: string)
    requires Settled(s) && e.Advance? && AdvanceStep(s, e, s')
    ensures s'.book.pushes[(id, t)] <= s'.book.oks[id] + s'.book.cut[id]
  {
    var d := s.procs[e.p];
    assert s'.book == Recorded(s.book, d.id, d.pc, e.o);
    if d.pc.Sending? {
      PushCount(e.o.accepted, d.id, id, t);
    }
  }

  lemma {:induction false} GroundedEver(states: seq<State>, events: seq<Event>, n: nat)
    requires Run(states, events) && n < |states|
    ensures Grounded(states[n])
    decreases n
  {
    if n > 0 {
      GroundedEver(states, events, n - 1);
      StepKeepsGrounded(states[n - 1], events[n - 1], states[n]);
    }
  }

  /** The send ledger, for every execution: crashes, failing calls and overlapping dispatches included. */
  lemma {:induction false} LedgerEver(states: seq<State>, events: seq<Event>, n: nat)
    requires Run(states, events) && n < |states|
    ensures Balanced(states[n]) && Settled(states[n])
    decreases n
  {
    if n == 0 {
      assert forall id, at: Pc -> bool :: At(INITIAL.procs, id, at) == {};
    } else {
      LedgerEver(states, events, n - 1);
      GroundedEver(states, events, n - 1);
      StepKeepsBalanced(states[n - 1], events[n - 1], states[n]);
      StepKeepsSettled(states[n - 1], events[n - 1], states[n]);
    }
  }

  // ----- The retry bound -----

  /** At most `width` dispatches of this row are past their load. */
  ghost predicate Narrow(s: State, id: Id, width: nat) {
    |At(s.procs, id, Holding)| <= width
  }

  /** So it has been up to here. */
  ghost predicate NarrowUntil(states: seq<State>, id: Id, width: nat, n: nat)
    requires n < |states|
  {
    forall i :: 0 <= i <= n ==> Narrow(states[i], id, width)
  }

  /** The increments still to come are counted in. */
  ghost predicate BoundedRow(s: State, id: Id, width: nat) {
    RetryCount(s, id) + |At(s.procs, id, Armed)| <= MAX_RETRIES - 1 + width
  }

  lemma AdvanceKeepsBounded(s: State, e: Event, s': State, id: Id, width: nat)
    requires Grounded(s) && BoundedRow(s, id, width) && Narrow(s', id, width) && e.Advance? && AdvanceStep(s, e, s')
    ensures BoundedRow(s', id, width)
  {
    AdvanceRetryCount(s, e, s', id);
    AdvanceMovesOne(s, e, s', id, Armed);
    Fewer(s'.procs, id, Armed, Holding);
  }

  lemma StepKeepsBounded(s: State, e: Event, s': State, id: Id, width: nat)
    requires Grounded(s) && BoundedRow(s, id, width) && Narrow(s', id, width) && Step(s, e, s')
    ensures BoundedRow(s', id, width)
  {
    if e.Advance? {
      AdvanceKeepsBounded(s, e, s', id, width);
    } else if e.Crash? {
      Dropped(s.procs, e.killed, id, Armed);
    } else {
      OthersAreQuiet(s, e, s');
      QuietKeepsPlaces(s, s', id, Armed);
    }
  }

  lemma BoundedAtStart(id: Id, width: nat)
    requires width > 0
    ensures BoundedRow(INITIAL, id, width)
  {
    assert At(INITIAL.procs, id, Armed) == {};
  }

  lemma BoundedNext(states: seq<State>, events: seq<Event>, id: Id, width: nat, n: nat)
    requires Run(states, events) && n + 1 < |states|
    requires BoundedRow(states[n], id, width) && Narrow(states[n + 1], id, width)
    ensures BoundedRow(states[n + 1], id, width)
  {
    GroundedEver(states, events, n);
    StepKeepsBounded(states[n], events[n], states[n + 1], id, width);
  }

  lemma {:induction false} BoundedEver(states: seq<State>, events: seq<Event>, id: Id, width: nat, n: nat)
    requires Run(states, events) && n < |states| && width > 0 && NarrowUntil(states, id, width, n)
    ensures BoundedRow(states[n], id, width)
    decreases n
  {
    if n == 0 {
      BoundedAtStart(id, width);
    } else {
      BoundedEver(states, events, id, width, n - 1);
      BoundedNext(states, events, id, width, n - 1);
    }
  }

  /** If at most `width` dispatches of a row have ever overlapped, its retry count exceeds the maximum by at most
      `width - 1`: the intended maximum when they never did. Other rows do not matter. */
  lemma RetryBound(states: seq<State>, events: seq<Event>, width: nat, n: nat, id: Id)
    requires Run(states, events) && n < |states| && width > 0 && NarrowUntil(states, id, width, n)
    requires id in states[n].rows
    ensures 0 <= states[n].rows[id].retryCount <= MAX_RETRIES + (width - 1)
  {
    BoundedEver(states, events, id, width, n);
    NonNegative(states, events, n, id);
  }

  lemma {:induction false} NonNegative(states: seq<State>, events: seq<Event>, n: nat, id: Id)
    requires Run(states, events) && n < |states|
    ensures RetryCount(states[n], id) >= 0
    decreases n
  {
    if n > 0 {
      NonNegative(states, events, n - 1, id);
      GroundedEver(states, events, n - 1);
      var s, e, s' := states[n - 1], events[n - 1], states[n];
      if e.Advance? {
        AdvanceRetryCount(s, e, s', id);
      } else if !e.Crash? {
        OthersAreQuiet(s, e, s');
      }
    }
  }

  // ----- Dispatches of a row that do not overlap -----

  /** At most `width` dispatches of any one row overlap. */
  ghost predicate Overlapping(s: State, width: nat) {
    forall id :: Narrow(s, id, width)
  }

  ghost predicate Serialised(states: seq<State>) {
    forall i :: 0 <= i < |states| ==> Overlapping(states[i], 1)
  }

  predicate HasSnap(pc: Pc) {
    pc.Mark? || pc.Sending? || pc.Increment?
  }

  /** A dispatch past its load holds an unfinished row, whose retry count is the one it has seen. */
  predicate Holds(s: State, p: Pid)
    requires Underway(s.procs, p)
  {
    var d := s.procs[p];
    && d.id in s.rows && Active(s.rows[d.id])
    && (HasSnap(d.pc) ==> d.pc.snap.retryCount == s.rows[d.id].retryCount)
    && (d.pc.Increment? ==> d.pc.snap.retryCount < MAX_RETRIES)
  }

  ghost predicate SteadyRow(s: State, id: Id) {
    forall p :: Underway(s.procs, p) && s.procs[p].id == id ==> Holds(s, p)
  }

  ghost predicate Steady(s: State) {
    forall p :: Underway(s.procs, p) ==> Holds(s, p)
  }

  /** `sent_at` is set exactly on sent rows; a row has one terminal write after a send at most, and
      none while it is unfinished. */
  ghost predicate ClosedRow(s: State, id: Id) {
    && (id in s.rows ==> (s.rows[id].sentAt.Some? <==> s.rows[id].status == Sent))
    && s.book.finals[id] <= if id in s.rows && !Active(s.rows[id]) then 1 else 0
  }

  lemma AdvanceKeepsSteady(s: State, e: Event, s': State, id: Id, p: Pid)
    requires SteadyRow(s, id) && Narrow(s, id, 1) && Narrow(s', id, 1) && e.Advance? && AdvanceStep(s, e, s')
    requires Underway(s'.procs, p) && s'.procs[p].id == id
    ensures Holds(s', p)
  {
    if e.p == p {
      assert Underway(s.procs, p) ==> Holds(s, p);
    } else {
      assert Holds(s, p);
      if s.procs[e.p].id == id {
        if Holding(s.procs[e.p].pc) {
          Overlap(s.procs, id, Holding, p, e.p);
          assert false;
        } else if Holding(s'.procs[e.p].pc) {
          Overlap(s'.procs, id, Holding, p, e.p);
          assert false;
        }
      }
    }
  }

  lemma StepKeepsSteady(s: State, e: Event, s': State, id: Id)
    requires SteadyRow(s, id) && Narrow(s, id, 1) && Narrow(s', id, 1) && Step(s, e, s')
    ensures SteadyRow(s', id)
  {
    if e.Advance? {
      forall p | Underway(s'.procs, p) && s'.procs[p].id == id {
        AdvanceKeepsSteady(s, e, s', id, p);
      }
    } else {
      if !e.Crash? {
        OthersAreQuiet(s, e, s');
      }
      forall p | Underway(s'.procs, p) && s'.procs[p].id == id
        ensures Holds(s', p)
      {
        assert Underway(s.procs, p) && Holds(s, p);
      }
    }
  }

  lemma FinishedUnheld(s: State, id: Id)
    requires SteadyRow(s, id) && id in s.rows && !Active(s.rows[id])
    ensures forall p :: Underway(s.procs, p) ==> s.procs[p].id != id
  {
  }

  /** A finished row is never written again, except by the read marks. */
  lemma FinishedStays(s: State, e: Event, s': State, id: Id)
    requires SteadyRow(s, id) && Step(s, e, s') && id in s.rows && !Active(s.rows[id])
    ensures id in s'.rows
    ensures OnlyRead(s.rows[id], s'.rows[id])
  {
    if e.Advance? {
      FinishedUnheld(s, id);
      assert Underway(s.procs, e.p) ==> s.procs[e.p].id != id;
    } else if !e.Crash? {
      OthersAreQuiet(s, e, s');
    }
  }

  lemma AdvanceKeepsClosed(s: State, e: Event, s': State, id: Id)
    requires SteadyRow(s, id) && ClosedRow(s, id) && e.Advance? && AdvanceStep(s, e, s')
    ensures ClosedRow(s', id)
  {
    var d := s.procs[e.p];
    assert Underway(s.procs, e.p) && d.id == id ==> Holds(s, e.p);
    assert s'.book == Recorded(s.book, d.id, d.pc, e.o);
    assert s'.rows == NextRows(s.rows, d.id, d.pc, e.o);
  }

  lemma StepKeepsClosed(s: State, e: Event, s': State, id: Id)
    requires SteadyRow(s, id) && ClosedRow(s, id) && Step(s, e, s')
    ensures ClosedRow(s', id)
  {
    if e.Advance? {
      AdvanceKeepsClosed(s, e, s', id);
    } else if e.Crash? {
      assert CrashRecorded(s, e.killed, s'.book, id);
    } else {
      OthersAreQuiet(s, e, s');
    }
  }

  /** As long as the dispatches of this row have not overlapped, whatever those of other rows did. */
  lemma {:induction false} SerialisedEver(states: seq<State>, events: seq<Event>, n: nat, id: Id)
    requires Run(states, events) && n < |states| && NarrowUntil(states, id, 1, n)
    ensures SteadyRow(states[n], id) && ClosedRow(states[n], id)
    decreases n
  {
    if n > 0 {
      SerialisedEver(states, events, n - 1, id);
      StepKeepsSteady(states[n - 1], events[n - 1], states[n], id);
      StepKeepsClosed(states[n - 1], events[n - 1], states[n], id);
    }
  }

  lemma OnlyReadTwice(a: Row, b: Row, c: Row)
    requires OnlyRead(a, b) && OnlyRead(b, c)
    ensures OnlyRead(a, c)
  {
  }

  lemma FinishedNext(states: seq<State>, events: seq<Event>, n: nat, id: Id)
    requires Run(states, events) && n + 1 < |states| && NarrowUntil(states, id, 1, n)
    requires id in states[n].rows && !Active(states[n].rows[id])
    ensures id in states[n + 1].rows && OnlyRead(states[n].rows[id], states[n + 1].rows[id])
  {
    SerialisedEver(states, events, n, id);
    FinishedStays(states[n], events[n], states[n + 1], id);
  }

  /** Sent and PermanentFailure are never left by a row whose dispatches do not overlap, whatever crashes and
      failing calls come later. */
  lemma {:induction false} TerminalForGood(states: seq<State>, events: seq<Event>, m: nat, n: nat, id: Id)
    requires Run(states, events) && m <= n < |states| && NarrowUntil(states, id, 1, n)
    requires id in states[m].rows && !Active(states[m].rows[id])
    ensures id in states[n].rows
    ensures OnlyRead(states[m].rows[id], states[n].rows[id])
    decreases n
  {
    if m < n {
      TerminalForGood(states, events, m, n - 1, id);
      FinishedNext(states, events, n - 1, id);
      OnlyReadTwice(states[m].rows[id], states[n - 1].rows[id], states[n].rows[id]);
    }
  }

  /** Holders and finished rows exclude each other, so at most one outcome is due or written. */
  lemma OneOutcome(s: State, id: Id, at: Pc -> bool)
    requires SteadyRow(s, id) && ClosedRow(s, id) && Narrow(s, id, 1)
    requires forall pc :: at(pc) ==> Holding(pc)
    ensures s.book.finals[id] + |At(s.procs, id, at)| <= 1
  {
    Fewer(s.procs, id, at, Holding);
    if |At(s.procs, id, at)| > 0 {
      var p :| p in At(s.procs, id, at);
      assert Underway(s.procs, p);
    }
  }

  /** Without overlap on it, a row is handed to its provider once per counted retry, once more, and once for
      each dispatch cut off before it could write the outcome: six times if none is. */
  lemma SendsBounded(states: seq<State>, events: seq<Event>, n: nat, id: Id)
    requires Run(states, events) && n < |states| && NarrowUntil(states, id, 1, n)
    ensures states[n].book.sends[id] <= RetryCount(states[n], id) + 1 + states[n].book.lost[id]
    ensures states[n].book.sends[id] <= MAX_RETRIES + 1 + states[n].book.lost[id]
  {
    LedgerEver(states, events, n);
    SerialisedEver(states, events, n, id);
    BoundedEver(states, events, id, 1, n);
    var s := states[n];
    OneOutcome(s, id, AfterSend);
    assert Paid(s, id);
  }

  /** Over its whole retry chain a push row whose dispatches do not overlap reaches each device at most once,
      plus once for each dispatch cut off between an accepting answer and the write of it, and once for each that
      dies within its provider call, when some devices may have taken the message already. */
  lemma DeviceHearsOnce(states: seq<State>, events: seq<Event>, n: nat, id: Id, token: string)
    requires Run(states, events) && n < |states| && NarrowUntil(states, id, 1, n)
    ensures states[n].book.pushes[(id, token)] <= 1 + states[n].book.lostOks[id] + states[n].book.cut[id]
  {
    LedgerEver(states, events, n);
    SerialisedEver(states, events, n, id);
    var s := states[n];
    OneOutcome(s, id, AtWriteSent);
    assert SettledRow(s, id);
    assert s.book.pushes[(id, token)] <= s.book.oks[id] + s.book.cut[id];
  }
}
