/** Event ingestion: poll loops, bounded channels, one worker a session, offset commits that may be lost.
    Any number of sessions may overlap: rebuilt ones, and those of other instances in the group. */
module Kafka {
  import opened Domain

  const CHANNEL_CAP := 512

  datatype Partition = Partition(topic: string, number: int)

  /** The place of a record in its log; also a committed position, which is the next offset to read. */
  datatype Record = Record(partition: Partition, offset: nat)

  datatype Worker = Idle | Busy(record: Record) | Dead

  /** `held` is the record the poll loop is handing over. `polled` is history. */
  datatype Session = Session(
    positions: map<Partition, nat>,
    polling: bool,
    held: Option<Record>,
    channel: seq<Record>,
    worker: Worker,
    polled: set<Record>)

  /** `log` is what the brokers still store, `ends` where they append next. `succeeded` and `failed` are
      the records `handle_record` has returned for. */
  datatype State = State(
    log: set<Record>,
    ends: map<Partition, nat>,
    committed: map<Partition, nat>,
    inFlight: multiset<Record>,
    sessions: map<nat, Session>,
    succeeded: set<Record>,
    failed: set<Record>)

  const INITIAL := State({}, map[], map[], multiset{}, map[], {}, {})

  /** A partition without a committed position is read from the start (`auto.offset.reset` is earliest). */
  function At(m: map<Partition, nat>, p: Partition): nat {
    if p in m then m[p] else 0
  }

  datatype Event =
    | Append(p: Partition, gap: nat)
    | Expire(record: Record)
    | Start(sid: nat)
    | Assign(sid: nat, p: Partition)
    | Revoke(sid: nat, p: Partition)
    | Poll(sid: nat, record: Record)
    | HandOver(sid: nat)
    | Stop(sid: nat)
    | Take(sid: nat)
    | Finish(sid: nat, ok: bool, sent: bool)
    | Panic(sid: nat)
    | Close(sid: nat)
    | Crash(sid: nat)
    | Settle(commit: Record, applied: bool)

  predicate InSession(s: State, e: Event) {
    match e
    case Append(_, _) => true
    case Expire(_) => true
    case Start(sid) => sid !in s.sessions
    case Settle(commit, _) => commit in s.inFlight
    case _ => e.sid in s.sessions
  }

  /** The poll loop gets the first record at or after its position. */
  ghost predicate NextToRead(log: set<Record>, position: nat, r: Record) {
    && r in log && position <= r.offset
    && forall other :: other in log && other.partition == r.partition && position <= other.offset
                       ==> r.offset <= other.offset
  }

  ghost predicate Enabled(s: State, e: Event) {
    InSession(s, e) &&
    match e
    case Poll(sid, r) =>
      var c := s.sessions[sid];
      c.polling && c.held.None? && r.partition in c.positions
      && NextToRead(s.log, c.positions[r.partition], r)
    case Assign(sid, _) => s.sessions[sid].polling
    case HandOver(sid) =>
      s.sessions[sid].held.Some? && (|s.sessions[sid].channel| < CHANNEL_CAP || s.sessions[sid].worker.Dead?)
    case Stop(sid) => s.sessions[sid].held.None?
    case Take(sid) => s.sessions[sid].worker.Idle? && s.sessions[sid].channel != []
    case Finish(sid, _, _) => s.sessions[sid].worker.Busy?
    case Panic(sid) => s.sessions[sid].worker.Busy?
    case Close(sid) =>
      var c := s.sessions[sid];
      !c.polling && c.held.None? && (c.worker.Dead? || (c.worker.Idle? && c.channel == []))
    case _ => true
  }

  function Changed(s: State, sid: nat, c: Session): State {
    s.(sessions := s.sessions[sid := c])
  }

  function Done(s: State): set<Record> {
    s.succeeded + s.failed
  }

  function CommitOf(r: Record): Record {
    Record(r.partition, r.offset + 1)
  }

  /** `handle_record` returns. Only a success is committed, and the commit may fail to go out. */
  function Finished(s: State, sid: nat, ok: bool, sent: bool): State
    requires sid in s.sessions && s.sessions[sid].worker.Busy?
  {
    var c := s.sessions[sid];
    var r := c.worker.record;
    var after := Changed(s, sid, c.(worker := Idle));
    if ok then
      after.(succeeded := s.succeeded + {r},
             inFlight := s.inFlight + if sent then multiset{CommitOf(r)} else multiset{})
    else
      after.(failed := s.failed + {r})
  }

  /** The poll loop has the record in its hands. */
  function Holding(c: Session, r: Record): Session {
    c.(positions := c.positions[r.partition := r.offset + 1], held := Some(r), polled := c.polled + {r})
  }

  ghost function Next(s: State, e: Event): State
    requires Enabled(s, e)
  {
    match e
    case Append(p, gap) =>
      var offset := At(s.ends, p) + gap;
      s.(log := s.log + {Record(p, offset)}, ends := s.ends[p := offset + 1])
    case Expire(r) => s.(log := s.log - {r})
    case Start(sid) => Changed(s, sid, Session(map[], true, None, [], Idle, {}))
    case Assign(sid, p) =>
      var c := s.sessions[sid];
      Changed(s, sid, c.(positions := c.positions[p := At(s.committed, p)]))
    case Revoke(sid, p) =>
      var c := s.sessions[sid];
      Changed(s, sid, c.(positions := c.positions - {p}))
    case Poll(sid, r) =>
      var c := s.sessions[sid];
      Changed(s, sid, Holding(c, r))
    case HandOver(sid) =>
      var c := s.sessions[sid];
      Changed(s, sid, if c.worker.Dead? then c.(held := None, polling := false)
                      else c.(held := None, channel := c.channel + [c.held.value]))
    case Stop(sid) => Changed(s, sid, s.sessions[sid].(polling := false))
    case Take(sid) =>
      var c := s.sessions[sid];
      Changed(s, sid, c.(worker := Busy(c.channel[0]), channel := c.channel[1..]))
    case Finish(sid, ok, sent) => Finished(s, sid, ok, sent)
    case Panic(sid) => Changed(s, sid, s.sessions[sid].(worker := Dead, channel := []))
    case Close(sid) => s.(sessions := s.sessions - {sid})
    case Crash(sid) => s.(sessions := s.sessions - {sid})
    case Settle(commit, applied) =>
      s.(inFlight := s.inFlight - multiset{commit},
         committed := if applied then s.committed[commit.partition := commit.offset] else s.committed)
  }

  /** The state these events lead to, when each could happen. */
  ghost function Along(s: State, es: seq<Event>): Option<State> {
    if es == [] then Some(s)
    else
      var e := es[|es| - 1];
      match Along(s, es[..|es| - 1])
      case Some(s') => if Enabled(s', e) then Some(Next(s', e)) else None
      case None => None
  }

  ghost function After(es: seq<Event>): Option<State> {
    Along(INITIAL, es)
  }

  // ----- What every step keeps -----

  /** What the session has polled and not yet handled, oldest first. */
  function Line(c: Session): seq<Record> {
    (if c.worker.Busy? then [c.worker.record] else []) + c.channel + if c.held.Some? then [c.held.value] else []
  }

  /** Every stored record before the position has been handled or is among these. */
  ghost predicate Covered(log: set<Record>, done: set<Record>, p: Partition, position: nat, among: seq<Record>) {
    forall r :: r in log && r.partition == p && r.offset < position ==> r in done || r in among
  }

  ghost predicate LineCovered(log: set<Record>, done: set<Record>, line: seq<Record>) {
    forall k :: 0 <= k < |line| ==> Covered(log, done, line[k].partition, line[k].offset, line[..k])
  }

  ghost predicate Within(ends: map<Partition, nat>, c: Session) {
    && (forall k :: 0 <= k < |Line(c)| ==> Line(c)[k].offset < At(ends, Line(c)[k].partition))
    && (forall p :: p in c.positions ==> c.positions[p] <= At(ends, p))
  }

  /** A session whose worker lives skips nothing: it may commit only past what is handled. */
  ghost predicate Orderly(log: set<Record>, done: set<Record>, c: Session) {
    c.worker.Dead? ||
    (&& LineCovered(log, done, Line(c))
     && (forall p :: p in c.positions ==> Covered(log, done, p, c.positions[p], Line(c)))
     && (forall r :: r in c.polled ==> r in done || r in Line(c)))
  }

  ghost predicate CommitSafe(s: State, p: Partition, position: nat) {
    position <= At(s.ends, p) && Covered(s.log, Done(s), p, position, [])
  }

  ghost predicate Safe(s: State) {
    && (forall r :: r in s.log ==> r.offset < At(s.ends, r.partition))
    && (forall p :: CommitSafe(s, p, At(s.committed, p)))
    && (forall c :: c in s.inFlight ==> CommitSafe(s, c.partition, c.offset))
    && (forall sid :: sid in s.sessions ==> Within(s.ends, s.sessions[sid]))
    && (forall sid :: sid in s.sessions ==> Orderly(s.log, Done(s), s.sessions[sid]))
  }

  /** Records are appended past the ends, and what is handled stays handled. */
  ghost predicate Moved(s: State, s': State) {
    && (forall r :: r in s'.log ==> r in s.log || r.offset >= At(s.ends, r.partition))
    && (forall p :: At(s.ends, p) <= At(s'.ends, p))
    && Done(s) <= Done(s')
  }

  lemma SessionStays(s: State, s': State, c: Session)
    requires Moved(s, s') && Within(s.ends, c) && Orderly(s.log, Done(s), c)
    ensures Within(s'.ends, c) && Orderly(s'.log, Done(s'), c)
  {
    if !c.worker.Dead? {
      forall k | 0 <= k < |Line(c)|
        ensures Covered(s'.log, Done(s'), Line(c)[k].partition, Line(c)[k].offset, Line(c)[..k])
      {
        assert Covered(s.log, Done(s), Line(c)[k].partition, Line(c)[k].offset, Line(c)[..k]);
      }
    }
  }

  lemma CommitsStay(s: State, s': State)
    requires Moved(s, s') && Safe(s)
    ensures forall p :: CommitSafe(s', p, At(s.committed, p))
    ensures forall c :: c in s.inFlight ==> CommitSafe(s', c.partition, c.offset)
  {
    forall p, position: nat | CommitSafe(s, p, position)
      ensures CommitSafe(s', p, position)
    {
    }
    forall p
      ensures CommitSafe(s', p, At(s.committed, p))
    {
      assert CommitSafe(s, p, At(s.committed, p));
    }
  }

  /** The sessions of `s'` that stood in `s` are still in order. */
  lemma OthersStay(s: State, s': State, except: set<nat>)
    requires Moved(s, s') && Safe(s)
    requires forall sid :: sid in s'.sessions && sid !in except ==>
               sid in s.sessions && s'.sessions[sid] == s.sessions[sid]
    ensures forall sid :: sid in s'.sessions && sid !in except ==>
              Within(s'.ends, s'.sessions[sid]) && Orderly(s'.log, Done(s'), s'.sessions[sid])
  {
    forall sid | sid in s'.sessions && sid !in except
      ensures Within(s'.ends, s'.sessions[sid]) && Orderly(s'.log, Done(s'), s'.sessions[sid])
    {
      SessionStays(s, s', s.sessions[sid]);
    }
  }

  /** One session moves on, the rest stands. */
  lemma SessionKeepsSafe(s: State, sid: nat, c: Session)
    requires Safe(s) && Within(s.ends, c) && Orderly(s.log, Done(s), c)
    ensures Safe(Changed(s, sid, c))
  {
    var s' := Changed(s, sid, c);
    assert Done(s') == Done(s);
    CommitsStay(s, s');
    OthersStay(s, s', {sid});
  }

  lemma LineExtended(log: set<Record>, done: set<Record>, line: seq<Record>, r: Record)
    requires LineCovered(log, done, line) && Covered(log, done, r.partition, r.offset, line)
    ensures LineCovered(log, done, line + [r])
  {
    forall k | 0 <= k <= |line|
      ensures Covered(log, done, (line + [r])[k].partition, (line + [r])[k].offset, (line + [r])[..k])
    {
      assert (line + [r])[..k] == line[..k];
      assert line[..|line|] == line;
    }
  }

  lemma PollKeepsOrder(log: set<Record>, ends: map<Partition, nat>, done: set<Record>, c: Session, r: Record)
    requires c.held.None? && Within(ends, c) && Orderly(log, done, c) && r.offset < At(ends, r.partition)
    requires r.partition in c.positions && NextToRead(log, c.positions[r.partition], r)
    ensures Within(ends, Holding(c, r)) && Orderly(log, done, Holding(c, r))
  {
    var c' := Holding(c, r);
    assert Line(c') == Line(c) + [r];
    if !c.worker.Dead? {
      assert Covered(log, done, r.partition, c.positions[r.partition], Line(c));
      LineExtended(log, done, Line(c), r);
    }
  }

  /** Handing over and taking leave the line as it is. */
  lemma HandOverKeepsOrder(s: State, sid: nat)
    requires Safe(s) && Enabled(s, HandOver(sid))
    ensures var c := Next(s, HandOver(sid)).sessions[sid]; Within(s.ends, c) && Orderly(s.log, Done(s), c)
  {
    var c, c' := s.sessions[sid], Next(s, HandOver(sid)).sessions[sid];
    assert Within(s.ends, c) && Orderly(s.log, Done(s), c);
    if c.worker.Dead? {
      assert forall k :: 0 <= k < |Line(c')| ==> Line(c')[k] == Line(c)[k];
    } else {
      assert Line(c') == Line(c);
    }
  }

  lemma TakeKeepsOrder(s: State, sid: nat)
    requires Safe(s) && Enabled(s, Take(sid))
    ensures var c := Next(s, Take(sid)).sessions[sid]; Within(s.ends, c) && Orderly(s.log, Done(s), c)
  {
    var c, c' := s.sessions[sid], Next(s, Take(sid)).sessions[sid];
    assert Within(s.ends, c) && Orderly(s.log, Done(s), c);
    assert Line(c') == Line(c);
  }

  lemma PanicKeepsOrder(s: State, sid: nat)
    requires Safe(s) && Enabled(s, Panic(sid))
    ensures var c := Next(s, Panic(sid)).sessions[sid]; Within(s.ends, c) && Orderly(s.log, Done(s), c)
  {
    var c, c' := s.sessions[sid], Next(s, Panic(sid)).sessions[sid];
    assert Within(s.ends, c);
    assert forall k :: 0 <= k < |Line(c')| ==> Line(c')[k] == Line(c)[|Line(c)| - 1];
  }

  /** Once the head is handled, the rest of the line is covered. */
  lemma HeadHandled(log: set<Record>, done: set<Record>, line: seq<Record>, r: Record)
    requires LineCovered(log, done, [r] + line)
    ensures LineCovered(log, done + {r}, line)
  {
    forall k | 0 <= k < |line|
      ensures Covered(log, done + {r}, line[k].partition, line[k].offset, line[..k])
    {
      assert ([r] + line)[k + 1] == line[k] && ([r] + line)[..k + 1] == [r] + line[..k];
    }
  }

  lemma FinishKeepsOrder(log: set<Record>, ends: map<Partition, nat>, done: set<Record>, c: Session)
    requires c.worker.Busy? && Within(ends, c) && Orderly(log, done, c)
    ensures var c' := c.(worker := Idle); Within(ends, c') && Orderly(log, done + {c.worker.record}, c')
  {
    var c' := c.(worker := Idle);
    assert Line(c) == [c.worker.record] + Line(c');
    HeadHandled(log, done, Line(c'), c.worker.record);
    assert forall k :: 0 <= k < |Line(c')| ==> Line(c')[k] == Line(c)[k + 1];
  }

  /** The head of the line is handled, so everything before its commit is. */
  lemma FinishCommitsSafely(s: State, sid: nat, ok: bool, sent: bool)
    requires Safe(s) && Enabled(s, Finish(sid, ok, sent))
    ensures var r := s.sessions[sid].worker.record;
      CommitSafe(Finished(s, sid, ok, sent), r.partition, r.offset + 1)
  {
    var c := s.sessions[sid];
    assert Line(c)[0] == c.worker.record;
    assert Within(s.ends, c) && Orderly(s.log, Done(s), c);
    assert Covered(s.log, Done(s), c.worker.record.partition, c.worker.record.offset, Line(c)[..0]);
  }

  lemma FinishKeepsSafe(s: State, sid: nat, ok: bool, sent: bool)
    requires Safe(s) && Enabled(s, Finish(sid, ok, sent))
    ensures Safe(Finished(s, sid, ok, sent))
  {
    var s' := Finished(s, sid, ok, sent);
    FinishKeepsOrder(s.log, s.ends, Done(s), s.sessions[sid]);
    assert Done(s') == Done(s) + {s.sessions[sid].worker.record};
    FinishCommitsSafely(s, sid, ok, sent);
    CommitsStay(s, s');
    OthersStay(s, s', {sid});
  }

  predicate Outside(e: Event) {
    e.Append? || e.Expire? || e.Close? || e.Crash? || e.Settle?
  }

  /** A fresh record lies past every position; other changes outside take records, sessions or commits away. */
  lemma OutsideMoves(s: State, e: Event)
    requires Safe(s) && Enabled(s, e)
    requires Outside(e)
    ensures Moved(s, Next(s, e))
    ensures forall r :: r in Next(s, e).log ==> r.offset < At(Next(s, e).ends, r.partition)
  {
  }

  /** Taking sessions and commits away, or moving a committed position to one that was in flight, is safe. */
  lemma RestStays(s: State, s': State)
    requires Moved(s, s') && Safe(s)
    requires forall r :: r in s'.log ==> r.offset < At(s'.ends, r.partition)
    requires forall sid :: sid in s'.sessions ==> sid in s.sessions && s'.sessions[sid] == s.sessions[sid]
    requires forall c :: c in s'.inFlight ==> c in s.inFlight
    requires forall p :: At(s'.committed, p) == At(s.committed, p) || Record(p, At(s'.committed, p)) in s.inFlight
    ensures Safe(s')
  {
    CommitsStay(s, s');
    OthersStay(s, s', {});
  }

  lemma OutsideKeepsSafe(s: State, e: Event)
    requires Safe(s) && Enabled(s, e)
    requires Outside(e)
    ensures Safe(Next(s, e))
  {
    OutsideMoves(s, e);
    RestStays(s, Next(s, e));
  }

  lemma AssignmentKeepsOrder(s: State, e: Event)
    requires Safe(s) && Enabled(s, e) && (e.Assign? || e.Revoke? || e.Stop?)
    ensures var c := Next(s, e).sessions[e.sid]; Within(s.ends, c) && Orderly(s.log, Done(s), c)
  {
    var c, c' := s.sessions[e.sid], Next(s, e).sessions[e.sid];
    assert Line(c') == Line(c);
    assert Within(s.ends, c) && Orderly(s.log, Done(s), c);
    if e.Assign? {
      assert CommitSafe(s, e.p, At(s.committed, e.p));
    }
  }

  lemma SessionStepIsLocal(s: State, e: Event)
    requires Enabled(s, e) && !Outside(e) && !e.Finish?
    ensures var s' := Next(s, e); e.sid in s'.sessions && s' == Changed(s, e.sid, s'.sessions[e.sid])
  {
  }

  /** The steps that move records along. */
  predicate Moves(e: Event) {
    e.HandOver? || e.Take? || e.Panic?
  }

  lemma MoveKeepsOrder(s: State, e: Event)
    requires Safe(s) && Enabled(s, e) && Moves(e)
    ensures var c := Next(s, e).sessions[e.sid]; Within(s.ends, c) && Orderly(s.log, Done(s), c)
  {
    match e
    case HandOver(sid) => HandOverKeepsOrder(s, sid);
    case Take(sid) => TakeKeepsOrder(s, sid);
    case Panic(sid) => PanicKeepsOrder(s, sid);
  }

  lemma ReadingKeepsOrder(s: State, e: Event)
    requires Safe(s) && Enabled(s, e) && !Outside(e) && !e.Finish? && !Moves(e)
    ensures var c := Next(s, e).sessions[e.sid]; Within(s.ends, c) && Orderly(s.log, Done(s), c)
  {
    match e
    case Start(_) =>
    case Poll(sid, r) => PollKeepsOrder(s.log, s.ends, Done(s), s.sessions[sid], r);
    case _ => AssignmentKeepsOrder(s, e);
  }

  lemma StepKeepsSafe(s: State, e: Event)
    requires Safe(s) && Enabled(s, e)
    ensures Safe(Next(s, e))
  {
    if Outside(e) {
      OutsideKeepsSafe(s, e);
    } else if e.Finish? {
      FinishKeepsSafe(s, e.sid, e.ok, e.sent);
    } else {
      SessionStepIsLocal(s, e);
      if Moves(e) {
        MoveKeepsOrder(s, e);
      } else {
        ReadingKeepsOrder(s, e);
      }
      SessionKeepsSafe(s, e.sid, Next(s, e).sessions[e.sid]);
    }
  }

  lemma {:induction false} SafeEver(es: seq<Event>)
    requires After(es).Some?
    ensures Safe(After(es).value)
  {
    if es != [] {
      SafeEver(es[..|es| - 1]);
      StepKeepsSafe(After(es[..|es| - 1]).value, es[|es| - 1]);
    }
  }

  /** A session that is assigned a partition resumes where the group has committed: what it polls first there is
      not below, and nothing stored in between is skipped. */
  lemma AssignmentResumes(s: State, sid: nat, p: Partition, r: Record)
    requires Enabled(s, Assign(sid, p)) && s.sessions[sid].held == None && r.partition == p
    ensures Enabled(Next(s, Assign(sid, p)), Poll(sid, r))
            <==> && r in s.log && (if p in s.committed then s.committed[p] else 0) <= r.offset
                 && forall q :: q in s.log && q.partition == p && q.offset < r.offset
                                ==> q.offset < if p in s.committed then s.committed[p] else 0
  {
    var position, s' := At(s.committed, p), Next(s, Assign(sid, p));
    assert s'.sessions[sid].positions[p] == position;
  }

  // ----- At least once -----

  /** In every run, whatever sessions overlapped, stopped, panicked or crashed and whichever commits were
      lost, reordered or stale: `handle_record` has returned for every stored record below the committed
      position. Contrariwise, a record it has not returned for is still ahead of the group. */
  lemma AtLeastOnce(es: seq<Event>, r: Record)
    requires After(es).Some?
    requires r in After(es).value.log && r.offset < At(After(es).value.committed, r.partition)
    ensures r in After(es).value.succeeded || r in After(es).value.failed
  {
    SafeEver(es);
    var s := After(es).value;
    assert CommitSafe(s, r.partition, At(s.committed, r.partition));
  }

  /** A session that closes with its worker alive has handled everything it ever polled. */
  lemma DrainLosesNothing(es: seq<Event>, sid: nat)
    requires After(es).Some? && Enabled(After(es).value, Close(sid))
    requires !After(es).value.sessions[sid].worker.Dead?
    ensures After(es).value.sessions[sid].polled <= Done(After(es).value)
  {
    SafeEver(es);
    assert Orderly(After(es).value.log, Done(After(es).value), After(es).value.sessions[sid]);
  }

  ghost predicate NoFailure(es: seq<Event>) {
    forall i :: 0 <= i < |es| && es[i].Finish? ==> es[i].ok
  }

  lemma StepFails(s: State, e: Event)
    requires Enabled(s, e)
    ensures Next(s, e).failed == {} <==> s.failed == {} && (e.Finish? ==> e.ok)
  {
    if e.Finish? && !e.ok {
      assert s.sessions[e.sid].worker.record in Next(s, e).failed;
    }
  }

  /** Failures are exactly the handlings that returned an error. */
  lemma {:induction false} FailedMeansError(es: seq<Event>)
    requires After(es).Some?
    ensures After(es).value.failed == {} <==> NoFailure(es)
  {
    if es != [] {
      var n := |es| - 1;
      FailedMeansError(es[..n]);
      StepFails(After(es[..n]).value, es[n]);
      assert forall i :: 0 <= i < n ==> es[..n][i] == es[i];
    }
  }

  /** "Handled" means "succeeded" for all records below the committed position, in runs without an error. */
  lemma CommittedSucceeded(es: seq<Event>, r: Record)
    requires After(es).Some? && NoFailure(es)
    requires r in After(es).value.log && r.offset < At(After(es).value.committed, r.partition)
    ensures r in After(es).value.succeeded
  {
    AtLeastOnce(es, r);
    FailedMeansError(es);
  }

  /** The commit is the one that goes out for this record's success. */
  predicate CommitsFor(s: State, commit: Record, r: Record) {
    r in s.succeeded && commit == CommitOf(r)
  }

  ghost predicate CommitsMeanSuccess(s: State) {
    forall c :: c in s.inFlight ==> exists r :: CommitsFor(s, c, r)
  }

  lemma StepKeepsMeaning(s: State, e: Event)
    requires CommitsMeanSuccess(s) && Enabled(s, e)
    ensures CommitsMeanSuccess(Next(s, e))
  {
    var s' := Next(s, e);
    assert s.succeeded <= s'.succeeded;
    forall c | c in s'.inFlight
      ensures exists r :: CommitsFor(s', c, r)
    {
      if c in s.inFlight {
        var r :| CommitsFor(s, c, r);
        assert CommitsFor(s', c, r);
      } else {
        assert CommitsFor(s', c, s.sessions[e.sid].worker.record);
      }
    }
  }

  lemma {:induction false} MeaningEver(es: seq<Event>)
    requires After(es).Some?
    ensures CommitsMeanSuccess(After(es).value)
  {
    if es != [] {
      MeaningEver(es[..|es| - 1]);
      StepKeepsMeaning(After(es[..|es| - 1]).value, es[|es| - 1]);
    }
  }

  /** The committed position passes a record in exactly one way, whether or not its handling failed: the commit
      of a success lands, its own or that of a record behind it in its partition. */
  lemma PassedExactly(es: seq<Event>, e: Event, r: Record)
    requires After(es).Some? && Enabled(After(es).value, e)
    requires At(After(es).value.committed, r.partition) <= r.offset
    ensures var s := After(es).value;
      r.offset < At(Next(s, e).committed, r.partition)
      <==> && e.Settle? && e.applied
           && exists later :: CommitsFor(s, e.commit, later)
                              && later.partition == r.partition && r.offset <= later.offset
  {
    var s := After(es).value;
    MeaningEver(es);
    if e.Settle? {
      var later :| CommitsFor(s, e.commit, later);
    }
  }

  lemma Then(s: State, es: seq<Event>, e: Event)
    requires Along(s, es).Some? && Enabled(Along(s, es).value, e)
    ensures Along(s, es + [e]) == Some(Next(Along(s, es).value, e))
  {
    assert (es + [e])[..|es|] == es;
  }

  // ----- "Handled" is not "succeeded" -----

  lemma Onward(es: seq<Event>, s: State, e: Event) returns (es': seq<Event>)
    requires After(es) == Some(s) && Enabled(s, e)
    ensures After(es') == Some(Next(s, e))
  {
    es' := es + [e];
    Then(INITIAL, es, e);
  }

  /** Two records are stored and one session reads them. */
  function Reading(p: Partition, c: Session): State {
    INITIAL.(log := {Record(p, 0), Record(p, 1)}, ends := map[p := 2], sessions := map[0 := c])
  }

  lemma StepOfReading(es: seq<Event>, p: Partition, c: Session, e: Event, c': Session) returns (es': seq<Event>)
    requires After(es) == Some(Reading(p, c)) && Enabled(Reading(p, c), e)
    requires Next(Reading(p, c), e) == Changed(Reading(p, c), 0, c')
    ensures After(es') == Some(Reading(p, c'))
  {
    es' := Onward(es, Reading(p, c), e);
    assert Reading(p, c).sessions[0 := c'] == Reading(p, c').sessions;
  }

  lemma ReadingStarts(p: Partition) returns (es: seq<Event>)
    ensures After(es) == Some(Reading(p, Session(map[p := 0], true, None, [], Idle, {})))
  {
    es := Onward([], INITIAL, Append(p, 0));
    var one := INITIAL.(log := {Record(p, 0)}, ends := map[p := 1]);
    assert INITIAL.log + {Record(p, 0)} == one.log && INITIAL.ends[p := 1] == one.ends;
    es := Onward(es, one, Append(p, 0));
    var two := INITIAL.(log := {Record(p, 0), Record(p, 1)}, ends := map[p := 2]);
    assert one.log + {Record(p, 1)} == two.log && one.ends[p := 2] == two.ends;
    es := Onward(es, two, Start(0));
    var began := Session(map[], true, None, [], Idle, {});
    assert two.sessions[0 := began] == Reading(p, began).sessions;
    es := StepOfReading(es, p, began, Assign(0, p), began.(positions := map[p := 0]));
  }

  lemma FirstTaken(p: Partition) returns (es: seq<Event>)
    ensures After(es) == Some(Reading(p, Session(map[p := 1], true, None, [], Busy(Record(p, 0)), {Record(p, 0)})))
  {
    var a := Record(p, 0);
    es := ReadingStarts(p);
    var c0 := Session(map[p := 0], true, None, [], Idle, {});
    var c1 := Session(map[p := 1], true, Some(a), [], Idle, {a});
    assert c0.positions[p := 1] == c1.positions && c0.polled + {a} == c1.polled;
    es := StepOfReading(es, p, c0, Poll(0, a), c1);
    var c2 := c1.(held := None, channel := [a]);
    assert c1.channel + [a] == c2.channel;
    es := StepOfReading(es, p, c1, HandOver(0), c2);
    var c3 := c2.(worker := Busy(a), channel := []);
    assert c2.channel[1..] == c3.channel;
    es := StepOfReading(es, p, c2, Take(0), c3);
  }

  lemma SecondPolled(p: Partition) returns (es: seq<Event>)
    ensures var polled := {Record(p, 0), Record(p, 1)};
      After(es) == Some(Reading(p, Session(map[p := 2], true, None, [Record(p, 1)], Busy(Record(p, 0)), polled)))
  {
    var a, b := Record(p, 0), Record(p, 1);
    es := FirstTaken(p);
    var c3 := Session(map[p := 1], true, None, [], Busy(a), {a});
    var c4 := Session(map[p := 2], true, Some(b), [], Busy(a), {a, b});
    assert c3.positions[p := 2] == c4.positions && c3.polled + {b} == c4.polled;
    es := StepOfReading(es, p, c3, Poll(0, b), c4);
    assert c4.channel + [b] == [b];
    es := StepOfReading(es, p, c4, HandOver(0), c4.(held := None, channel := [b]));
  }

  lemma FirstFails(p: Partition) returns (es: seq<Event>, s: State)
    ensures After(es) == Some(s) && 0 in s.sessions && s.sessions[0].worker == Idle
    ensures s.sessions[0].channel == [Record(p, 1)] && s.succeeded == {} && Record(p, 0) in s.log
  {
    var a, b := Record(p, 0), Record(p, 1);
    es := SecondPolled(p);
    var before := Reading(p, Session(map[p := 2], true, None, [b], Busy(a), {a, b}));
    es := Onward(es, before, Finish(0, false, true));
    s := Finished(before, 0, false, true);
  }

  /** A record whose handling fails is passed over by the commit of the record behind it. */
  lemma FailurePassedOver(p: Partition) returns (es: seq<Event>)
    ensures After(es).Some?
    ensures var s := After(es).value;
      At(s.committed, p) == 2 && Record(p, 0) in s.log && Record(p, 0) !in s.succeeded
  {
    var s1;
    es, s1 := FirstFails(p);
    es := Onward(es, s1, Take(0));
    var s2 := Next(s1, Take(0));
    assert s2.sessions[0].worker == Busy(Record(p, 1));
    es := Onward(es, s2, Finish(0, true, true));
    var s3 := Finished(s2, 0, true, true);
    assert s3.succeeded == {Record(p, 1)} && Record(p, 2) in s3.inFlight;
    es := Onward(es, s3, Settle(Record(p, 2), true));
  }
}
