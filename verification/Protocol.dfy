/** The delivery protocol as a state machine. Each adapter call is one atomic step, so any number of
    dispatchers, queue callers, timers and recovery sweeps interleave; a crash can fall between any
    two steps, and any repository call can fail, whether or not it took effect. */
module Protocol {
  import opened Domain
  import opened Backoff
  import opened Repository

  type Pid = nat

  /** A dispatch runs for an unacknowledged delivery of `noti.dispatch`, or as a spawned task. */
  datatype Origin = Delivery | Spawned

  /** Where one run of `dispatch` stands: the adapter call it makes next. */
  datatype Pc =
    | Load
    | Mark(snap: Row)
    | Sending(snap: Row)
    | WriteSent(providerRef: string)
    | WriteFailed(error: string, afterSend: bool)
    | Increment(snap: Row, error: string)
    | WritePending(error: string, delay: int)
    | Publish(delay: int)
    | Done(ok: bool)

  datatype Proc =
    | Timer(id: Id)
    | Caller(id: Id)
    | Sweeper(due: seq<Id>)
    | Dispatching(id: Id, origin: Origin, pc: Pc)

  /** What the adapters answer to one step. `accepted` are the device tokens the provider took the
      message for. */
  datatype Outcome = Outcome(
    fault: Fault,
    rendered: Result<string, string>,
    sent: Result<string, string>,
    accepted: set<string>,
    published: bool,
    now: int,
    dbNow: int)

  /** What a provider promises: an error means that no device took the message. */
  predicate ProviderContract(o: Outcome) {
    o.sent.Err? ==> o.accepted == {}
  }

  /** The row statement a dispatch runs at `pc`, if it runs one there. */
  function Statement(pc: Pc, now: int): Option<Write> {
    match pc
    case Mark(_) => Some(SetStatus(Processing, None, None, now))
    case WriteSent(providerRef) => Some(SetStatus(Sent, None, Some(providerRef), now))
    case WriteFailed(error, _) => Some(SetStatus(PermanentFailure, Some(error), None, now))
    case Increment(snap, _) => Some(BumpRetry(now + Delay(snap.retryCount + 1)))
    case WritePending(error, _) => Some(SetStatus(Pending, Some(error), None, now))
    case _ => None
  }

  /** The next position of a dispatch that finds `row` in the table. */
  function NextPc(row: Option<Row>, pc: Pc, o: Outcome): Pc {
    if o.fault != Fine && (pc.Load? || Statement(pc, o.now).Some?) then Done(false) else
    match pc
    case Load =>
      if row.None? then Done(false)
      else if !Active(row.value) then Done(true)
      else Mark(row.value)
    case Mark(snap) =>
      if o.rendered.Ok? then Sending(snap) else WriteFailed(o.rendered.error, false)
    case Sending(snap) =>
      if o.sent.Ok? then WriteSent(o.sent.value)
      else if snap.retryCount >= MAX_RETRIES then WriteFailed(o.sent.error, true)
      else Increment(snap, o.sent.error)
    case WriteSent(_) => Done(true)
    case WriteFailed(_, _) => Done(false)
    case Increment(snap, error) => WritePending(error, Delay(snap.retryCount + 1))
    case WritePending(_, delay) => Publish(delay)
    case Publish(_) => Done(true)
    case Done(ok) => Done(ok)
  }

  function NextRows(rows: map<Id, Row>, id: Id, pc: Pc, o: Outcome): map<Id, Row> {
    var w := Statement(pc, o.now);
    if w.None? || o.fault == Unapplied then rows else Updated(rows, id, w.value, o.dbNow)
  }

  /** How a finished or running `queue_notification` call ended for its caller. */
  datatype Call = Call(key: Option<string>, returned: Option<Id>, triggered: bool)

  /** History, kept for the properties only: per row, the provider calls, the accepted provider calls,
      the terminal writes that followed a provider call, the dispatches cut off between a provider
      call and its outcome's write, those of them whose call was accepted, those that died within the
      call, and, per row and device, the accepted pushes. */
  datatype Book = Book(
    sends: multiset<Id>,
    oks: multiset<Id>,
    finals: multiset<Id>,
    lost: multiset<Id>,
    lostOks: multiset<Id>,
    cut: multiset<Id>,
    pushes: multiset<(Id, string)>)

  datatype State = State(
    rows: map<Id, Row>,
    dispatchQ: multiset<Id>,
    retryQ: multiset<Id>,
    procs: map<Pid, Proc>,
    calls: map<Id, Call>,
    book: Book)

  /** Between a provider call and the write of its outcome. */
  predicate AfterSend(pc: Pc) {
    pc.WriteSent? || pc.Increment? || (pc.WriteFailed? && pc.afterSend)
  }

  /** Between an accepted provider call and the write of Sent. */
  predicate AtWriteSent(pc: Pc) {
    pc.WriteSent?
  }

  function Recorded(book: Book, id: Id, pc: Pc, o: Outcome): Book {
    if pc.Sending? then
      book.(sends := book.sends + multiset{id},
            oks := if o.sent.Ok? then book.oks + multiset{id} else book.oks,
            pushes := book.pushes + multiset(set t | t in o.accepted :: (id, t)))
    else if AfterSend(pc) && o.fault == Unapplied then
      book.(lost := book.lost + multiset{id},
            lostOks := if pc.WriteSent? then book.lostOks + multiset{id} else book.lostOks)
    else if AfterSend(pc) && !pc.Increment? then
      book.(finals := book.finals + multiset{id})
    else book
  }

  /** The row `queue_notification` asks for. */
  predicate FreshRequest(request: Row) {
    request.status == Pending && request.retryCount == 0
    && request.providerRef == None && request.errorMessage == None
    && request.sentAt == None && request.readAt == None
  }

  datatype Event =
    | Queue(newId: Id, request: Row, saved: Id, fault: Fault, q: Pid)
    | Trigger(p: Pid, published: bool)
    | SweepTrigger(p: Pid, published: bool, q: Pid)
    | Deliver(id: Id, q: Pid)
    | Expire(id: Id)
    | Fire(p: Pid)
    | Advance(p: Pid, o: Outcome, q: Pid)
    | Finish(p: Pid)
    | Detach(p: Pid)
    | Reset(threshold: int, dbNow: int)
    | Fetch(q: Pid, limit: nat, dbNow: int, due: seq<Id>)
    | MarkRead(id: Id, dbNow: int)
    | Crash(killed: set<Pid>)

  predicate IsAt(proc: Proc, id: Id, at: Pc -> bool) {
    proc.Dispatching? && proc.id == id && at(proc.pc)
  }

  /** The dispatches of row `id` whose position satisfies `at`. */
  function At(procs: map<Pid, Proc>, id: Id, at: Pc -> bool): set<Pid> {
    set p | p in procs && IsAt(procs[p], id, at)
  }

  function AtAmong(procs: map<Pid, Proc>, some: set<Pid>, id: Id, at: Pc -> bool): set<Pid> {
    set p | p in some && p in procs && IsAt(procs[p], id, at)
  }

  function OwnedDeliveries(procs: map<Pid, Proc>, killed: set<Pid>, id: Id): set<Pid> {
    set p | p in killed && p in procs && procs[p].Dispatching? && procs[p].id == id && procs[p].origin == Delivery
  }

  /** `queue_notification` up to its trigger. A call whose id was taken by the key's holder returns that
      id and triggers nothing. */
  ghost predicate QueueStep(s: State, e: Event, s': State)
    requires e.Queue?
  {
    && FreshRequest(e.request)
    && e.newId !in s.rows && e.newId !in s.calls && e.q !in s.procs
    && (if e.fault == Unapplied then s'.rows == s.rows
        else Creates(s.rows, e.newId, e.request, s'.rows, e.saved))
    && var returned := if e.fault == Fine then Some(e.saved) else None;
    && s' == s.(rows := s'.rows,
                calls := s.calls[e.newId := Call(e.request.key, returned, false)],
                procs := if returned == Some(e.newId) then s.procs[e.q := Caller(e.newId)] else s.procs)
  }

  /** One adapter call of the dispatch `p`. A retry that cannot be published becomes the timer `q`. */
  ghost predicate AdvanceStep(s: State, e: Event, s': State)
    requires e.Advance?
  {
    && e.p in s.procs && s.procs[e.p].Dispatching? && !s.procs[e.p].pc.Done?
    && ProviderContract(e.o)
    && e.q !in s.procs
    && var d := s.procs[e.p];
    && var moved := s.procs[e.p := d.(pc := NextPc(Lookup(s.rows, d.id), d.pc, e.o))];
    && s' == s.(
         rows := NextRows(s.rows, d.id, d.pc, e.o),
         book := Recorded(s.book, d.id, d.pc, e.o),
         retryQ := if d.pc.Publish? && e.o.published then s.retryQ + multiset{d.id} else s.retryQ,
         procs := if d.pc.Publish? && !e.o.published then moved[e.q := Timer(d.id)] else moved)
  }

  predicate AtSending(pc: Pc) {
    pc.Sending?
  }

  /** The crash's entries for one row. Of the dispatches killed at their provider call any number were within
      it, and each of them may have reached each device once. */
  ghost predicate CrashRecorded(s: State, killed: set<Pid>, book': Book, id: Id) {
    var book := s.book;
    && book.cut[id] <= book'.cut[id] <= book.cut[id] + |AtAmong(s.procs, killed, id, AtSending)|
    && book'.sends[id] + book.cut[id] == book.sends[id] + book'.cut[id]
    && book'.lost[id] + book.cut[id] == book.lost[id] + |AtAmong(s.procs, killed, id, AfterSend)| + book'.cut[id]
    && book'.lostOks[id] == book.lostOks[id] + |AtAmong(s.procs, killed, id, AtWriteSent)|
    && book'.oks[id] == book.oks[id] && book'.finals[id] == book.finals[id]
    && forall t :: book.pushes[(id, t)] <= book'.pushes[(id, t)]
                && book'.pushes[(id, t)] + book.cut[id] <= book.pushes[(id, t)] + book'.cut[id]
  }

  /** Some processes die. The broker takes back their unacknowledged deliveries. */
  ghost predicate CrashStep(s: State, e: Event, s': State)
    requires e.Crash?
  {
    && e.killed <= s.procs.Keys
    && s' == s.(procs := s.procs - e.killed, dispatchQ := s'.dispatchQ, book := s'.book)
    && (forall id :: s'.dispatchQ[id] == s.dispatchQ[id] + |OwnedDeliveries(s.procs, e.killed, id)|)
    && (forall id :: CrashRecorded(s, e.killed, s'.book, id))
  }

  ghost predicate Step(s: State, e: Event, s': State) {
    match e
    case Queue(_, _, _, _, _) => QueueStep(s, e, s')
    case Trigger(p, published) =>
      && p in s.procs && s.procs[p].Caller? && s.procs[p].id in s.calls
      && var id := s.procs[p].id;
      && s' == s.(
           calls := s.calls[id := s.calls[id].(triggered := true)],
           dispatchQ := if published then s.dispatchQ + multiset{id} else s.dispatchQ,
           procs := if published then s.procs - {p} else s.procs[p := Dispatching(id, Spawned, Load)])
    case SweepTrigger(p, published, q) =>
      && p in s.procs && s.procs[p].Sweeper? && s.procs[p].due != [] && q !in s.procs
      && var due := s.procs[p].due;
      && var rest := s.procs[p := Sweeper(due[1..])];
      && s' == s.(
           dispatchQ := if published then s.dispatchQ + multiset{due[0]} else s.dispatchQ,
           procs := if published then rest else rest[q := Dispatching(due[0], Spawned, Load)])
    case Deliver(id, q) =>
      && id in s.dispatchQ && q !in s.procs
      && s' == s.(dispatchQ := s.dispatchQ - multiset{id}, procs := s.procs[q := Dispatching(id, Delivery, Load)])
    case Expire(id) =>
      && id in s.retryQ
      && s' == s.(retryQ := s.retryQ - multiset{id}, dispatchQ := s.dispatchQ + multiset{id})
    case Fire(p) =>
      && p in s.procs && s.procs[p].Timer?
      && s' == s.(procs := s.procs[p := Dispatching(s.procs[p].id, Spawned, Load)])
    case Advance(_, _, _) => AdvanceStep(s, e, s')
    case Finish(p) =>
      // ack, nack without requeue, or the end of a task: none puts anything back
      && p in s.procs
      && (s.procs[p] == Sweeper([]) || (s.procs[p].Dispatching? && s.procs[p].pc.Done?))
      && s' == s.(procs := s.procs - {p})
    case Detach(p) =>
      // the channel is lost: the broker redelivers while the dispatch goes on
      && p in s.procs && s.procs[p].Dispatching? && s.procs[p].origin == Delivery
      && s' == s.(procs := s.procs[p := s.procs[p].(origin := Spawned)],
                  dispatchQ := s.dispatchQ + multiset{s.procs[p].id})
    case Reset(threshold, dbNow) =>
      s' == s.(rows := ResetStuck(s.rows, threshold, dbNow))
    case Fetch(q, limit, dbNow, due) =>
      && q !in s.procs && Selects(s.rows, limit, dbNow, due)
      && s' == s.(procs := s.procs[q := Sweeper(due)])
    case MarkRead(id, dbNow) =>
      && id in s.rows
      && s' == s.(rows := s.rows[id := s.rows[id].(readAt := Some(dbNow), updatedAt := dbNow)])
    case Crash(_) => CrashStep(s, e, s')
  }

  const EMPTY_BOOK := Book(multiset{}, multiset{}, multiset{}, multiset{}, multiset{}, multiset{}, multiset{})

  const INITIAL := State(map[], multiset{}, multiset{}, map[], map[], EMPTY_BOOK)

  /** `states` is an execution from `states[0]` that takes `events`. */
  ghost predicate Execution(states: seq<State>, events: seq<Event>) {
    && |states| == |events| + 1
    && forall i :: 0 <= i < |events| ==> Step(states[i], events[i], states[i + 1])
  }

  /** Any execution of the service since the table was empty. */
  ghost predicate Run(states: seq<State>, events: seq<Event>) {
    Execution(states, events) && states[0] == INITIAL
  }

  // ----- Counting processes -----

  lemma Replaced(procs: map<Pid, Proc>, p: Pid, proc: Proc, id: Id, at: Pc -> bool)
    ensures |At(procs[p := proc], id, at)|
         == |At(procs, id, at)| + (if IsAt(proc, id, at) then 1 else 0)
            - (if p in procs && IsAt(procs[p], id, at) then 1 else 0)
  {
    var before, after := At(procs, id, at), At(procs[p := proc], id, at);
    if IsAt(proc, id, at) {
      assert after == before + {p};
    } else {
      assert after == before - {p};
    }
  }

  lemma Dropped(procs: map<Pid, Proc>, killed: set<Pid>, id: Id, at: Pc -> bool)
    ensures |At(procs - killed, id, at)|
         == |At(procs, id, at)| - |AtAmong(procs, killed, id, at)|
  {
    var gone := AtAmong(procs, killed, id, at);
    var left, all := At(procs - killed, id, at), At(procs, id, at);
    assert forall p :: p in procs - killed ==> (procs - killed)[p] == procs[p];
    assert left == all - gone;
    assert all == left + gone;
  }

  // ----- Fresh process ids -----

  lemma FreshPid(procs: map<Pid, Proc>) returns (q: Pid)
    ensures q !in procs
  {
    q := Above(procs.Keys);
  }

  ghost function Above(pids: set<Pid>): (bound: nat)
    ensures forall p :: p in pids ==> p < bound
  {
    if pids == {} then 0
    else
      var p :| p in pids;
      assert forall x :: x in pids ==> x == p || x in pids - {p};
      Above(pids - {p}) + p + 1
  }
}
