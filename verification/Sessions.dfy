/** One consumer session as it runs: the poll loop, the bounded channel and the worker, proved against the
    ingestion machine. */
module Sessions {
  import opened Domain
  import opened Kafka

  /** How a handling ends, and whether the commit after a success goes out. */
  datatype Reply = Reply(ok: bool, sent: bool)

  /** The commits that go out for the first `n` records, in order. */
  function CommitsOf(rs: seq<Record>, n: nat, replies: nat -> Reply): seq<Record>
    requires n <= |rs|
  {
    if n == 0 then []
    else
      var reply := replies(n - 1);
      CommitsOf(rs, n - 1, replies) + if reply.ok && reply.sent then [CommitOf(rs[n - 1])] else []
  }

  /** Those of the first `n` records whose handling ended this way. */
  function Handled(rs: seq<Record>, n: nat, replies: nat -> Reply, ok: bool): set<Record>
    requires n <= |rs|
  {
    if n == 0 then {}
    else
      var before := Handled(rs, n - 1, replies, ok);
      if replies(n - 1).ok == ok then before + {rs[n - 1]} else before
  }

  /** What one turn of the poll loop sees. */
  datatype Recv = Tick | Message(record: Record) | Transient | Fatal | Cancelled

  predicate Ends(r: Recv) {
    r.Fatal? || r.Cancelled?
  }

  /** The records that come in before the loop ends; a script that runs out is cut off by the token. */
  function PolledOf(recvs: seq<Recv>): seq<Record> {
    if recvs == [] || Ends(recvs[0]) then []
    else Received(recvs[0]) + PolledOf(recvs[1..])
  }

  predicate EndsFatally(recvs: seq<Recv>) {
    recvs != [] && (recvs[0].Fatal? || (!Ends(recvs[0]) && EndsFatally(recvs[1..])))
  }

  /** The records among the first `n` of these, in order. */
  function Messages(recvs: seq<Recv>, n: nat): seq<Record>
    requires n <= |recvs|
  {
    if n == 0 then []
    else Messages(recvs, n - 1) + if recvs[n - 1].Message? then [recvs[n - 1].record] else []
  }

  lemma {:induction false} PolledAfter(recvs: seq<Recv>, n: nat)
    requires n <= |recvs| && forall i :: 0 <= i < n ==> !recvs[i].Fatal? && !recvs[i].Cancelled?
    ensures PolledOf(recvs) == Messages(recvs, n) + PolledOf(recvs[n..])
    ensures EndsFatally(recvs) == EndsFatally(recvs[n..])
    decreases n
  {
    if n > 0 {
      PolledAfter(recvs, n - 1);
      NextTurn(recvs, n - 1, Messages(recvs, n - 1));
    } else {
      assert recvs[0..] == recvs;
    }
  }

  /** What a session polls is every record that comes in before the token fires or the brokers are gone, in order,
      past idle ticks and transient errors; it ends with an error exactly when it was the brokers. */
  lemma PolledExact(recvs: seq<Recv>, n: nat)
    requires n <= |recvs| && forall i :: 0 <= i < n ==> !recvs[i].Fatal? && !recvs[i].Cancelled?
    requires n < |recvs| ==> recvs[n].Fatal? || recvs[n].Cancelled?
    ensures PolledOf(recvs) == Messages(recvs, n)
    ensures EndsFatally(recvs) <==> n < |recvs| && recvs[n].Fatal?
    ensures forall i :: 0 <= i < n && recvs[i].Message? ==> recvs[i].record in PolledOf(recvs)
  {
    PolledAfter(recvs, n);
    EndOfScript(recvs, n, Messages(recvs, n));
    AllMessages(recvs, n);
  }

  lemma {:induction false} AllMessages(recvs: seq<Recv>, n: nat)
    requires n <= |recvs|
    ensures forall r :: r in Messages(recvs, n) <==> Message(r) in recvs[..n]
    decreases n
  {
    if n > 0 {
      AllMessages(recvs, n - 1);
      assert recvs[..n] == recvs[..n - 1] + [recvs[n - 1]];
    }
  }

  /** Records that come in later change nothing about the first ones. */
  lemma {:induction false} LaterRecords(rs: seq<Record>, r: Record, n: nat, replies: nat -> Reply, ok: bool)
    requires n <= |rs|
    ensures CommitsOf(rs + [r], n, replies) == CommitsOf(rs, n, replies)
    ensures Handled(rs + [r], n, replies, ok) == Handled(rs, n, replies, ok)
    decreases n
  {
    if n > 0 {
      LaterRecords(rs, r, n - 1, replies, ok);
    }
  }

  /** The record of one turn, if it has one. */
  function Received(recv: Recv): seq<Record> {
    if recv.Message? then [recv.record] else []
  }

  lemma NextTurn(recvs: seq<Recv>, i: nat, rs: seq<Record>)
    requires i < |recvs| && !Ends(recvs[i])
    ensures rs + PolledOf(recvs[i..]) == rs + Received(recvs[i]) + PolledOf(recvs[i + 1..])
    ensures EndsFatally(recvs[i..]) == EndsFatally(recvs[i + 1..])
  {
    var rest := recvs[i..];
    assert rest[0] == recvs[i] && rest[1..] == recvs[i + 1..];
  }

  // ----- The session on the machine -----

  /** A running session seen from outside. `open` is whether it still polls. */
  datatype View = View(
    open: bool,
    alive: bool,
    taken: seq<Record>,
    channel: seq<Record>,
    commits: seq<Record>,
    succeeded: set<Record>,
    failed: set<Record>)

  /** The view once the worker has handled its oldest record. */
  function Worked(v: View, reply: Reply): View
    requires v.channel != []
  {
    var rec, rest := v.channel[0], v.(channel := v.channel[1..]);
    if reply.ok then
      rest.(succeeded := v.succeeded + {rec}, commits := v.commits + if reply.sent then [CommitOf(rec)] else [])
    else
      rest.(failed := v.failed + {rec})
  }

  function Died(v: View): View {
    v.(alive := false, channel := [])
  }

  /** A dead worker takes nothing, and the poll loop ends on it. */
  function HandedOver(v: View, r: Record): View {
    if v.alive then v.(taken := v.taken + [r], channel := v.channel + [r]) else v.(open := false)
  }

  /** The fetch positions after these records. */
  function PositionsAfter(positions: map<Partition, nat>, rs: seq<Record>): map<Partition, nat> {
    if rs == [] then positions
    else
      var r := rs[|rs| - 1];
      PositionsAfter(positions, rs[..|rs| - 1])[r.partition := r.offset + 1]
  }

  /** The brokers hand out this record next. */
  ghost predicate Offer(log: set<Record>, positions: map<Partition, nat>, r: Record) {
    r.partition in positions && NextToRead(log, positions[r.partition], r)
  }

  /** The brokers hand out these records, in this order. */
  ghost predicate Offers(log: set<Record>, positions: map<Partition, nat>, rs: seq<Record>) {
    forall k :: 0 <= k < |rs| ==> Offer(log, PositionsAfter(positions, rs[..k]), rs[k])
  }

  /** The machine with its session `sid` at `c`, after what the session has sent and handled. */
  function Placed(s0: State, sid: nat, c: Session, v: View): State {
    s0.(sessions := s0.sessions[sid := c],
        inFlight := s0.inFlight + multiset(v.commits),
        succeeded := s0.succeeded + v.succeeded,
        failed := s0.failed + v.failed)
  }

  ghost predicate Stands(positions: map<Partition, nat>, c: Session, v: View) {
    && c.held == None && c.channel == v.channel && c.worker == (if v.alive then Idle else Dead)
    && c.polling == v.open && (v.open ==> c.positions == PositionsAfter(positions, v.taken))
  }

  /** This run of the machine leads to `s`, where its session stands as this one does. */
  ghost predicate Reached(s0: State, sid: nat, trace: seq<Event>, s: State, v: View) {
    && sid in s0.sessions && sid in s.sessions
    && After(trace) == Some(s)
    && s == Placed(s0, sid, s.sessions[sid], v)
    && Stands(s0.sessions[sid].positions, s.sessions[sid], v)
  }

  lemma Replaced(s0: State, sid: nat, c: Session, c': Session, v: View)
    ensures Changed(Placed(s0, sid, c, v), sid, c') == Placed(s0, sid, c', v)
  {
    assert s0.sessions[sid := c][sid := c'] == s0.sessions[sid := c'];
  }

  lemma StartReached(s0: State, sid: nat, history: seq<Event>)
    requires After(history) == Some(s0) && Begins(s0, sid)
    ensures Reached(s0, sid, history, s0, View(true, true, [], [], [], {}, {}))
  {
    assert s0.sessions[sid := s0.sessions[sid]] == s0.sessions;
    assert s0.inFlight + multiset([]) == s0.inFlight;
    assert s0.succeeded + {} == s0.succeeded && s0.failed + {} == s0.failed;
  }

  /** A step that only moves the session. */
  lemma SessionMoved(s0: State, sid: nat, trace: seq<Event>, s: State, v: View, e: Event, c': Session)
    requires sid in s.sessions && After(trace) == Some(s) && s == Placed(s0, sid, s.sessions[sid], v)
    requires Enabled(s, e) && Next(s, e) == Changed(s, sid, c')
    ensures After(trace + [e]) == Some(Placed(s0, sid, c', v))
  {
    Then(INITIAL, trace, e);
    Replaced(s0, sid, s.sessions[sid], c', v);
  }

  lemma WorkReached(s0: State, sid: nat, trace: seq<Event>, s: State, v: View, reply: Reply)
    returns (trace': seq<Event>, s': State)
    requires Reached(s0, sid, trace, s, v) && v.alive && v.channel != []
    ensures trace <= trace' && Reached(s0, sid, trace', s', Worked(v, reply))
  {
    var c := s.sessions[sid];
    var busy := c.(worker := Busy(v.channel[0]), channel := v.channel[1..]);
    SessionMoved(s0, sid, trace, s, v, Take(sid), busy);
    var mid, e := Placed(s0, sid, busy, v), Finish(sid, reply.ok, reply.sent);
    Then(INITIAL, trace + [Take(sid)], e);
    trace', s' := trace + [Take(sid)] + [e], Next(mid, e);
    FinishPlaced(s0, sid, busy, v, reply);
  }

  lemma FinishPlaced(s0: State, sid: nat, c: Session, v: View, reply: Reply)
    requires v.channel != [] && c.worker == Busy(v.channel[0])
    ensures Finished(Placed(s0, sid, c, v), sid, reply.ok, reply.sent)
         == Placed(s0, sid, c.(worker := Idle), Worked(v, reply))
  {
    Replaced(s0, sid, c, c.(worker := Idle), v);
    var rec := v.channel[0];
    assert s0.succeeded + v.succeeded + {rec} == s0.succeeded + (v.succeeded + {rec});
    assert s0.failed + v.failed + {rec} == s0.failed + (v.failed + {rec});
    assert multiset(v.commits + [CommitOf(rec)]) == multiset(v.commits) + multiset{CommitOf(rec)};
  }

  lemma DeathReached(s0: State, sid: nat, trace: seq<Event>, s: State, v: View)
    returns (trace': seq<Event>, s': State)
    requires Reached(s0, sid, trace, s, v) && v.alive && v.channel != []
    ensures trace <= trace' && Reached(s0, sid, trace', s', Died(v))
  {
    var c := s.sessions[sid];
    var busy := c.(worker := Busy(v.channel[0]), channel := v.channel[1..]);
    var dead := busy.(worker := Dead, channel := []);
    SessionMoved(s0, sid, trace, s, v, Take(sid), busy);
    SessionMoved(s0, sid, trace + [Take(sid)], Placed(s0, sid, busy, v), v, Panic(sid), dead);
    trace', s' := trace + [Take(sid)] + [Panic(sid)], Placed(s0, sid, dead, v);
  }

  /** The poll loop holds the record; the rest stands. */
  ghost predicate Holds(positions: map<Partition, nat>, c: Session, v: View, r: Record) {
    && v.open && c.polling && c.held == Some(r)
    && c.channel == v.channel && c.worker == (if v.alive then Idle else Dead)
    && c.positions == PositionsAfter(positions, v.taken)[r.partition := r.offset + 1]
  }

  lemma PollMoved(s0: State, sid: nat, trace: seq<Event>, s: State, v: View, r: Record) returns (c': Session)
    requires Reached(s0, sid, trace, s, v) && v.open
    requires Offer(s0.log, PositionsAfter(s0.sessions[sid].positions, v.taken), r)
    ensures After(trace + [Poll(sid, r)]) == Some(Placed(s0, sid, c', v))
    ensures Holds(s0.sessions[sid].positions, c', v, r)
  {
    c' := Holding(s.sessions[sid], r);
    SessionMoved(s0, sid, trace, s, v, Poll(sid, r), c');
  }

  lemma HandOverMoved(s0: State, sid: nat, trace: seq<Event>, c: Session, v: View, r: Record) returns (c': Session)
    requires sid in s0.sessions && After(trace) == Some(Placed(s0, sid, c, v))
    requires Holds(s0.sessions[sid].positions, c, v, r) && (v.alive ==> |v.channel| < CHANNEL_CAP)
    ensures After(trace + [HandOver(sid)]) == Some(Placed(s0, sid, c', HandedOver(v, r)))
    ensures Stands(s0.sessions[sid].positions, c', HandedOver(v, r))
  {
    c' := if v.alive then c.(held := None, channel := v.channel + [r]) else c.(held := None, polling := false);
    SessionMoved(s0, sid, trace, Placed(s0, sid, c, v), v, HandOver(sid), c');
    assert (v.taken + [r])[..|v.taken|] == v.taken;
  }

  lemma HandOverReached(s0: State, sid: nat, trace: seq<Event>, s: State, v: View, r: Record)
    returns (trace': seq<Event>, s': State)
    requires Reached(s0, sid, trace, s, v) && v.open && (v.alive ==> |v.channel| < CHANNEL_CAP)
    requires Offer(s0.log, PositionsAfter(s0.sessions[sid].positions, v.taken), r)
    ensures trace <= trace' && Reached(s0, sid, trace', s', HandedOver(v, r))
  {
    var c := PollMoved(s0, sid, trace, s, v, r);
    trace' := trace + [Poll(sid, r)];
    c := HandOverMoved(s0, sid, trace', c, v, r);
    trace', s' := trace' + [HandOver(sid)], Placed(s0, sid, c, HandedOver(v, r));
  }

  lemma StopReached(s0: State, sid: nat, trace: seq<Event>, s: State, v: View)
    returns (trace': seq<Event>, s': State)
    requires Reached(s0, sid, trace, s, v)
    ensures trace <= trace' && Reached(s0, sid, trace', s', v.(open := false))
  {
    var c' := s.sessions[sid].(polling := false);
    SessionMoved(s0, sid, trace, s, v, Stop(sid), c');
    trace', s' := trace + [Stop(sid)], Placed(s0, sid, c', v);
  }

  /** A session's channel and worker, and what they have sent and handled so far. `taken` is
      history, the records the channel took; the worker has handled the first `count` of them. The other ghost
      fields follow the session on the ingestion machine, where it began as session `sid` of the state `start`,
      after `past`. */
  class KafkaSession {
    var alive: bool
    var channel: seq<Record>
    var commits: seq<Record>
    var succeeded: set<Record>
    var failed: set<Record>
    var count: nat
    ghost var taken: seq<Record>
    ghost var open: bool
    ghost const past: seq<Event>
    ghost const start: State
    ghost const sid: nat
    ghost var trace: seq<Event>
    ghost var machine: State

    constructor (ghost past: seq<Event>, ghost start: State, ghost sid: nat)
      ensures Empty() && this.past == past && this.start == start && this.sid == sid
      ensures After(past) == Some(start) && Begins(start, sid) ==> OnMachine()
    {
      alive, channel, commits, succeeded, failed, count := true, [], [], {}, {}, 0;
      taken, open, trace, machine := [], true, past, start;
      this.past, this.start, this.sid := past, start, sid;
      new;
      if After(past) == Some(start) && Begins(start, sid) {
        StartReached(start, sid, past);
      }
    }

    ghost predicate Empty()
      reads this
    {
      && open && alive && channel == [] && commits == []
      && succeeded == {} && failed == {} && taken == [] && count == 0
    }

    ghost function Seen(): View
      reads this`open, this`alive, this`taken, this`channel, this`commits, this`succeeded, this`failed
    {
      View(open, alive, taken, channel, commits, succeeded, failed)
    }

    /** What the session had done by this view is a stretch of a run of the machine. */
    ghost predicate OnMachineAs(v: View)
      reads this`trace, this`machine
    {
      past <= trace && After(past) == Some(start) && Reached(start, sid, trace, machine, v)
    }

    ghost predicate OnMachine()
      reads this
    {
      OnMachineAs(Seen())
    }

    /** The brokers hand out this record next. */
    ghost predicate NextFor(taken: seq<Record>, r: Record) {
      sid in start.sessions && Offer(start.log, PositionsAfter(start.sessions[sid].positions, taken), r)
    }

    /** The brokers hand out exactly these records. */
    ghost predicate Offered(rs: seq<Record>) {
      sid in start.sessions && Offers(start.log, start.sessions[sid].positions, rs)
    }

    /** The first `count` records were handled in order. The others wait in the channel, or are lost with the
        worker, which died of the next one. */
    ghost predicate InOrder(replies: nat -> Reply, dies: nat -> bool)
      reads this`alive, this`channel, this`commits, this`succeeded, this`failed, this`count, this`taken
    {
      && count <= |taken|
      && (if alive then channel == taken[count..] else channel == [] && count < |taken| && dies(count))
      && commits == CommitsOf(taken, count, replies)
      && succeeded == Handled(taken, count, replies, true) && failed == Handled(taken, count, replies, false)
    }

    // The machine follows what has just happened.

    ghost method FollowWork(v: View, reply: Reply)
      requires v.alive && v.channel != [] && Seen() == Worked(v, reply)
      modifies this`trace, this`machine
      ensures old(OnMachineAs(v)) ==> OnMachine()
    {
      if OnMachineAs(v) {
        trace, machine := WorkReached(start, sid, trace, machine, v, reply);
      }
    }

    ghost method FollowDeath(v: View)
      requires v.alive && v.channel != [] && Seen() == Died(v)
      modifies this`trace, this`machine
      ensures old(OnMachineAs(v)) ==> OnMachine()
    {
      if OnMachineAs(v) {
        trace, machine := DeathReached(start, sid, trace, machine, v);
      }
    }

    ghost method FollowHandOver(v: View, r: Record)
      requires v.open && (v.alive ==> |v.channel| < CHANNEL_CAP) && Seen() == HandedOver(v, r)
      modifies this`trace, this`machine
      ensures NextFor(v.taken, r) && old(OnMachineAs(v)) ==> OnMachine()
    {
      if NextFor(v.taken, r) && OnMachineAs(v) {
        trace, machine := HandOverReached(start, sid, trace, machine, v, r);
      }
    }

    /** The poll loop has ended, and the channel is closed. */
    ghost method Stop()
      modifies this`open, this`trace, this`machine
      ensures !open && (old(OnMachine()) ==> OnMachine())
    {
      ghost var v := Seen();
      open := false;
      if OnMachineAs(v) {
        trace, machine := StopReached(start, sid, trace, machine, v);
      }
    }

    /** The oldest record is handled, and committed if that went well. */
    method Handle(replies: nat -> Reply, dies: nat -> bool)
      requires InOrder(replies, dies) && alive && channel != []
      modifies this`channel, this`count, this`commits, this`succeeded, this`failed
      ensures InOrder(replies, dies) && count == old(count) + 1
      ensures Seen() == Worked(old(Seen()), replies(old(count)))
    {
      var rec, reply := channel[0], replies(count);
      channel, count := channel[1..], count + 1;
      if reply.ok {
        succeeded := succeeded + {rec};
        if reply.sent {
          commits := commits + [CommitOf(rec)];
        }
      } else {
        failed := failed + {rec};
      }
    }

    /** The worker dies of the oldest record, and the channel is gone with it. */
    method Die(replies: nat -> Reply, dies: nat -> bool)
      requires InOrder(replies, dies) && alive && channel != [] && dies(count)
      modifies this`alive, this`channel
      ensures InOrder(replies, dies) && Seen() == Died(old(Seen()))
    {
      alive, channel := false, [];
    }

    /** One turn of the worker, which may be its last. */
    method Work(replies: nat -> Reply, dies: nat -> bool)
      requires InOrder(replies, dies) && alive && channel != []
      modifies this
      ensures InOrder(replies, dies) && taken == old(taken) && |channel| < |old(channel)|
      ensures alive == !dies(old(count)) && count == old(count) + (if alive then 1 else 0)
      ensures open == old(open) && (old(OnMachine()) ==> OnMachine())
    {
      ghost var v, reply := Seen(), replies(count);
      if dies(count) {
        Die(replies, dies);
        FollowDeath(v);
      } else {
        Handle(replies, dies);
        FollowWork(v, reply);
      }
    }

    /** The worker goes on for a while beside the poll loop. */
    method WorkFor(turns: nat, replies: nat -> Reply, dies: nat -> bool)
      requires InOrder(replies, dies)
      modifies this
      ensures InOrder(replies, dies) && taken == old(taken) && |channel| <= |old(channel)|
      ensures open == old(open) && (old(OnMachine()) ==> OnMachine())
    {
      var left := turns;
      while left > 0 && alive && channel != []
        invariant InOrder(replies, dies) && taken == old(taken) && |channel| <= |old(channel)|
        invariant open == old(open) && (old(OnMachine()) ==> OnMachine())
      {
        Work(replies, dies);
        left := left - 1;
      }
    }

    /** The channel takes the record, or is closed. */
    method Accept(r: Record, replies: nat -> Reply, dies: nat -> bool)
      requires InOrder(replies, dies) && open && (alive ==> |channel| < CHANNEL_CAP)
      modifies this`channel, this`taken, this`open
      ensures InOrder(replies, dies) && Seen() == HandedOver(old(Seen()), r)
    {
      if alive {
        LaterRecords(taken, r, count, replies, true);
        LaterRecords(taken, r, count, replies, false);
        channel := channel + [r];
        taken := taken + [r];
      } else {
        open := false;
      }
    }

    /** Hands a record over. A full channel makes the poll loop wait for the worker; a closed one is an error. */
    method Send(r: Record, replies: nat -> Reply, dies: nat -> bool) returns (sent: bool)
      requires InOrder(replies, dies) && |channel| <= CHANNEL_CAP && open
      modifies this
      ensures InOrder(replies, dies) && |channel| <= CHANNEL_CAP
      ensures sent == alive == open && taken == old(taken) + (if alive then [r] else [])
      ensures old(OnMachine() && NextFor(taken, r)) ==> OnMachine()
    {
      if alive && |channel| == CHANNEL_CAP {
        Work(replies, dies);
      }
      ghost var v := Seen();
      Accept(r, replies, dies);
      FollowHandOver(v, r);
      sent := alive;
    }

    /** One turn of the poll loop, with what the worker has done since the last. */
    method Turn(recvs: seq<Recv>, i: nat, turns: nat, replies: nat -> Reply, dies: nat -> bool) returns (ok: bool)
      requires i < |recvs| && !Ends(recvs[i]) && PolledOf(recvs) == taken + PolledOf(recvs[i..])
      requires InOrder(replies, dies) && |channel| <= CHANNEL_CAP && open
      modifies this
      ensures InOrder(replies, dies) && |channel| <= CHANNEL_CAP && ok == open
      ensures if ok then PolledOf(recvs) == taken + PolledOf(recvs[i + 1..]) else !alive
      ensures EndsFatally(recvs[i..]) == EndsFatally(recvs[i + 1..])
      ensures old(OnMachine()) && Offered(PolledOf(recvs)) ==> OnMachine()
    {
      NextTurn(recvs, i, taken);
      NextOffered(recvs, i);
      WorkFor(turns, replies, dies);
      ok := true;
      if recvs[i].Message? {
        ok := Send(recvs[i].record, replies, dies);
      }
    }

    /** Polls until the token fires, the brokers are gone or the worker turns out dead. Before each turn the
        worker may have taken any number of its own. */
    method Poll(recvs: seq<Recv>, pace: nat -> nat, replies: nat -> Reply, dies: nat -> bool) returns (ok: bool)
      requires Empty()
      modifies this
      ensures InOrder(replies, dies) && !open
      ensures ok || alive ==> taken == PolledOf(recvs)
      ensures ok ==> !EndsFatally(recvs)
      ensures !ok ==> EndsFatally(recvs) || !alive
      ensures old(OnMachine()) && Offered(PolledOf(recvs)) ==> OnMachine()
    {
      ghost var offered := OnMachine() && Offered(PolledOf(recvs));
      var i := 0;
      while i < |recvs| && !Ends(recvs[i])
        invariant 0 <= i <= |recvs| && InOrder(replies, dies) && |channel| <= CHANNEL_CAP && open
        invariant PolledOf(recvs) == taken + PolledOf(recvs[i..])
        invariant EndsFatally(recvs[i..]) == EndsFatally(recvs)
        invariant offered ==> OnMachine()
      {
        ok := Turn(recvs, i, pace(i), replies, dies);
        if !ok {
          return;
        }
        i := i + 1;
      }
      ok := i == |recvs| || recvs[i].Cancelled?;
      EndOfScript(recvs, i, taken);
      Stop();
    }

    /** What comes in next is what the brokers hand out next. */
    lemma NextOffered(recvs: seq<Recv>, i: nat)
      requires i < |recvs| && PolledOf(recvs) == taken + PolledOf(recvs[i..])
      ensures Offered(PolledOf(recvs)) && recvs[i].Message? ==> NextFor(taken, recvs[i].record)
    {
      if Offered(PolledOf(recvs)) && recvs[i].Message? {
        assert recvs[i..][0] == recvs[i];
        assert PolledOf(recvs)[|taken|] == recvs[i].record && PolledOf(recvs)[..|taken|] == taken;
      }
    }

    /** Runs a whole session: the poll loop, and then what the worker still finds in the closed channel.
        Whichever way the loop ended, a worker that lives has handled everything that was polled. When the
        brokers hand the records out as they lie in the log, all of this is a stretch of the machine's runs,
        and the session may close there. */
    method Run(recvs: seq<Recv>, pace: nat -> nat, replies: nat -> Reply, dies: nat -> bool) returns (ok: bool)
      requires Empty()
      modifies this
      ensures InOrder(replies, dies) && !open
      ensures alive ==> taken == PolledOf(recvs) && count == |taken|
      ensures ok ==> taken == PolledOf(recvs) && !EndsFatally(recvs)
      ensures !ok ==> EndsFatally(recvs) || !alive
      ensures old(OnMachine()) && Offered(PolledOf(recvs)) ==> OnMachine() && Enabled(machine, Event.Close(sid))
    {
      ghost var offered := OnMachine() && Offered(PolledOf(recvs));
      ok := Poll(recvs, pace, replies, dies);
      ghost var rs := taken;
      while alive && channel != []
        invariant InOrder(replies, dies) && taken == rs && !open
        invariant ok || alive ==> taken == PolledOf(recvs)
        invariant !ok ==> EndsFatally(recvs) || !alive
        invariant offered ==> OnMachine()
        decreases |channel|
      {
        Work(replies, dies);
      }
    }
  }

  /** The session can start on the machine from here. */
  predicate Begins(s: State, sid: nat) {
    && sid in s.sessions
    && var c := s.sessions[sid];
    c.polling && c.held == None && c.worker == Idle && c.channel == []
  }

  /** What holds in every run holds of a session, from wherever it began: its commits pass only records that
      are handled. */
  lemma SessionCommitsSafely(s0: State, sid: nat, trace: seq<Event>, s: State, v: View, commit: Record)
    requires Reached(s0, sid, trace, s, v) && commit in v.commits
    ensures CommitSafe(s, commit.partition, commit.offset)
  {
    SafeEver(trace);
    assert commit in multiset(v.commits);
  }

  lemma EndOfScript(recvs: seq<Recv>, i: nat, rs: seq<Record>)
    requires i <= |recvs| && (i < |recvs| ==> Ends(recvs[i]))
    ensures rs + PolledOf(recvs[i..]) == rs
    ensures EndsFatally(recvs[i..]) <==> i < |recvs| && recvs[i].Fatal?
  {
    assert i < |recvs| ==> recvs[i..][0] == recvs[i];
  }
}
