/** From the log to the table and on to the providers: the consumers and the delivery service as one machine. */
module Ingestion {
  import opened Domain
  import opened Repository
  import opened Keys
  import opened Events
  import opened Replay
  import Kafka
  import Protocol
  import Carriers
  import Retries
  import Drain

  // ----- The table of a run -----

  /** The store that the keyed queue calls among the first `n` events make, the first call with a key deciding. */
  function KeyedStore(events: seq<Protocol.Event>, n: nat): Store
    requires n <= |events|
  {
    if n == 0 then map[] else StoreAfter(KeyedStore(events, n - 1), events[n - 1])
  }

  function StoreAfter(store: Store, e: Protocol.Event): Store {
    if e.Queue? && e.fault != Unapplied && e.request.key.Some?
    then Created(store, e.request.key.value, ContentOf(e.request)) else store
  }

  /** No step of the service takes a row away or changes what it stands for. */
  lemma RowsStay(s: Protocol.State, e: Protocol.Event, s': Protocol.State, id: Id)
    requires Protocol.Step(s, e, s') && id in s.rows
    ensures id in s'.rows && s'.rows[id].key == s.rows[id].key && ContentOf(s'.rows[id]) == ContentOf(s.rows[id])
  {
    if e.Advance? {
      var d := s.procs[e.p];
      var w := Protocol.Statement(d.pc, e.o.now);
      if w.Some? {
        WritesKeepContent(s.rows[id], w.value, 0, e.o.dbNow);
      }
    } else if e.Reset? {
      assert s'.rows[id] == Unstuck(s.rows[id], e.threshold, e.dbNow);
    } else if !e.Queue? && !e.MarkRead? {
      assert s'.rows == s.rows;
    }
  }

  /** Only a queue call that takes effect adds a row. */
  lemma OnlyQueueAdds(s: Protocol.State, e: Protocol.Event, s': Protocol.State, id: Id)
    requires Protocol.Step(s, e, s') && id in s'.rows && id !in s.rows
    ensures e.Queue? && e.fault != Unapplied && id == e.newId && s'.rows[id] == Inserted(e.request)
    ensures !KeyTaken(s.rows, e.request.key)
  {
  }

  lemma OtherStepShows(s: Protocol.State, e: Protocol.Event, s': Protocol.State, store: Store)
    requires Protocol.Step(s, e, s') && Shows(s.rows, store)
    requires !(e.Queue? && e.fault != Unapplied && e.request.key.Some?)
    ensures Shows(s'.rows, store)
  {
    forall id | id in s'.rows && s'.rows[id].key.Some?
      ensures s'.rows[id].key.value in store && store[s'.rows[id].key.value] == ContentOf(s'.rows[id])
    {
      if id in s.rows {
        RowsStay(s, e, s', id);
      } else {
        OnlyQueueAdds(s, e, s', id);
      }
    }
    forall key | key in store
      ensures exists id :: id in s'.rows && s'.rows[id].key == Some(key)
    {
      var id :| id in s.rows && s.rows[id].key == Some(key);
      RowsStay(s, e, s', id);
    }
  }

  lemma StepShows(s: Protocol.State, e: Protocol.Event, s': Protocol.State, store: Store)
    requires Protocol.Step(s, e, s') && Shows(s.rows, store)
    ensures Shows(s'.rows, StoreAfter(store, e))
  {
    if e.Queue? && e.fault != Unapplied && e.request.key.Some? {
      UpsertIsFirstWins(s.rows, e.newId, e.request, s'.rows, e.saved, store);
    } else {
      OtherStepShows(s, e, s', store);
    }
  }

  /** The event carries every store that shows in the rows over to those after it. */
  ghost predicate Carries(rows: map<Id, Row>, e: Protocol.Event, rows': map<Id, Row>) {
    forall store :: Shows(rows, store) ==> Shows(rows', StoreAfter(store, e))
  }

  lemma StepCarries(s: Protocol.State, e: Protocol.Event, s': Protocol.State)
    requires Protocol.Step(s, e, s')
    ensures Carries(s.rows, e, s'.rows)
  {
    forall store | Shows(s.rows, store)
      ensures Shows(s'.rows, StoreAfter(store, e))
    {
      StepShows(s, e, s', store);
    }
  }

  lemma {:induction false} CarriedAlong(states: seq<Protocol.State>, events: seq<Protocol.Event>, n: nat)
    requires n <= |events| < |states| && states[0].rows == map[]
    requires forall i :: 0 <= i < n ==> Carries(states[i].rows, events[i], states[i + 1].rows)
    ensures Shows(states[n].rows, KeyedStore(events, n))
    decreases n
  {
    if n > 0 {
      CarriedAlong(states, events, n - 1);
      assert Carries(states[n - 1].rows, events[n - 1], states[n].rows);
    }
  }

  /** At every moment of every run of the service the table's keyed rows are this store: each key has a row, and
      the row says what the first call with the key asked for. */
  lemma TableShows(states: seq<Protocol.State>, events: seq<Protocol.Event>, n: nat)
    requires Protocol.Run(states, events) && n < |states|
    ensures Shows(states[n].rows, KeyedStore(events, n))
  {
    forall i | 0 <= i < n
      ensures Carries(states[i].rows, events[i], states[i + 1].rows)
    {
      StepCarries(states[i], events[i], states[i + 1]);
    }
    CarriedAlong(states, events, n);
  }

  // ----- Consumers and service together -----

  type MessageOf = Kafka.Record -> Message

  /** `progress` is how many calls of the record in hand have returned Ok; none once one has failed. */
  datatype Joint = Joint(kafka: Kafka.State, service: Protocol.State, progress: map<nat, Option<nat>>)

  datatype Move =
    | Consumer(k: Kafka.Event)
    | Service(e: Protocol.Event)
    | Call(sid: nat, e: Protocol.Event)

  /** Event ids are colon-free, labels are apart, and equal ids (or coordinates) mean equal events. */
  ghost predicate Sound(messageOf: MessageOf) {
    && (forall r :: Identified(messageOf(r).ctx) && WellTagged(messageOf(r).plan))
    && (forall r, q :: SameEvent(messageOf(r).ctx, messageOf(q).ctx) ==> messageOf(r).plan == messageOf(q).plan)
  }

  predicate Plans(messageOf: MessageOf, r: Kafka.Record, i: nat, key: string, content: Content) {
    var m := messageOf(r);
    i < |m.plan| && key == Idem(m.ctx, m.plan[i].tag) && content == m.plan[i].content
  }

  /** The plan of a record's event. A sign-in, here None, has none: its calls depend on the counter and are made
      beside the plans, under keys of their own. */
  function PlanOf(env: Env, event: Option<Event>): seq<Planned> {
    match event
    case None => []
    case Some(e) => Plan(env, e)
  }

  /** The handlers' plans are sound, where ids are colon-free and equal ids or coordinates mean equal events. */
  lemma HandlersAreSound(env: Env, ctxOf: Kafka.Record -> MsgCtx, eventOf: Kafka.Record -> Option<Event>,
                         messageOf: MessageOf)
    requires forall r :: messageOf(r) == Message(ctxOf(r), PlanOf(env, eventOf(r)))
    requires forall r :: Identified(ctxOf(r))
    requires forall r, q :: SameEvent(ctxOf(r), ctxOf(q)) ==> eventOf(r) == eventOf(q)
    ensures Sound(messageOf)
  {
    forall r
      ensures Identified(messageOf(r).ctx) && WellTagged(messageOf(r).plan)
    {
      if eventOf(r).Some? {
        PlansWellTagged(env, eventOf(r).value);
      }
    }
  }

  /** Some event plans a notification under this key. */
  ghost predicate Reserved(messageOf: MessageOf, key: string) {
    exists r, i, content :: Plans(messageOf, r, i, key, content)
  }

  /** The sign-ins' calls are among those the service takes from elsewhere: no plan uses their keys. */
  lemma SignInKeysAreFree(env: Env, ctxOf: Kafka.Record -> MsgCtx, eventOf: Kafka.Record -> Option<Event>,
                          messageOf: MessageOf, ctx: MsgCtx)
    requires forall r :: messageOf(r) == Message(ctxOf(r), PlanOf(env, eventOf(r)))
    requires forall r :: Identified(ctxOf(r))
    requires Identified(ctx)
    ensures !Reserved(messageOf, Idem(ctx, SIGN_IN)) && !Reserved(messageOf, Idem(ctx, SIGN_IN_PUSH))
  {
    forall r, i: nat, content, tag | tag == SIGN_IN || tag == SIGN_IN_PUSH
      ensures !Plans(messageOf, r, i, Idem(ctx, tag), content)
    {
      if eventOf(r).Some? && i < |messageOf(r).plan| {
        NoSignIn(env, eventOf(r).value, i, ctxOf(r), ctx, tag);
      }
    }
  }

  lemma NoSignIn(env: Env, e: Event, i: nat, c: MsgCtx, ctx: MsgCtx, tag: string)
    requires i < |Plan(env, e)| && (tag == SIGN_IN || tag == SIGN_IN_PUSH) && Identified(c) && Identified(ctx)
    ensures Idem(c, Plan(env, e)[i].tag) != Idem(ctx, tag)
  {
    var p := Plan(env, e)[i];
    PlansApart(env, e);
    PlansWellTagged(env, e);
    assert p in Plan(env, e);
    assert SIGN_IN[0] == SIGN_IN_PUSH[0] == 'n' && KAFKA[0] == 'k';
    KeyCollides(c, p.tag, ctx, tag);
  }

  ghost predicate InHand(j: Joint, sid: nat, r: Kafka.Record) {
    sid in j.kafka.sessions && j.kafka.sessions[sid].worker == Kafka.Busy(r) && sid in j.progress
  }

  /** A handler returns Ok only after all its calls did. */
  ghost predicate ConsumerStep(j: Joint, k: Kafka.Event, j': Joint, messageOf: MessageOf) {
    && Kafka.Enabled(j.kafka, k)
    && (k.Finish? && k.ok ==>
          var r := j.kafka.sessions[k.sid].worker.record;
          InHand(j, k.sid, r) && j.progress[k.sid] == Some(|messageOf(r).plan|))
    && j' == j.(kafka := Kafka.Next(j.kafka, k),
                progress := if k.Take? then j.progress[k.sid := Some(0)] else j.progress)
  }

  /** The next call of the handler at work in the session. */
  ghost predicate CallStep(j: Joint, sid: nat, e: Protocol.Event, j': Joint, messageOf: MessageOf) {
    && sid in j.kafka.sessions && j.kafka.sessions[sid].worker.Busy?
    && var r := j.kafka.sessions[sid].worker.record;
    && InHand(j, sid, r) && j.progress[sid].Some?
    && var n := j.progress[sid].value;
    && e.Queue? && e.request.key.Some? && Plans(messageOf, r, n, e.request.key.value, ContentOf(e.request))
    && Protocol.Step(j.service, e, j'.service)
    && j' == j.(service := j'.service, progress := j.progress[sid := if e.fault == Fine then Some(n + 1) else None])
  }

  /** Other callers do not use the events' keys. */
  ghost predicate ServiceStep(j: Joint, e: Protocol.Event, j': Joint, messageOf: MessageOf) {
    && (e.Queue? && e.request.key.Some? ==> !Reserved(messageOf, e.request.key.value))
    && Protocol.Step(j.service, e, j'.service) && j' == j.(service := j'.service)
  }

  ghost predicate JointStep(j: Joint, m: Move, j': Joint, messageOf: MessageOf) {
    match m
    case Consumer(k) => ConsumerStep(j, k, j', messageOf)
    case Service(e) => ServiceStep(j, e, j', messageOf)
    case Call(sid, e) => CallStep(j, sid, e, j', messageOf)
  }

  const START := Joint(Kafka.INITIAL, Protocol.INITIAL, map[])

  ghost predicate JointRun(js: seq<Joint>, ms: seq<Move>, messageOf: MessageOf) {
    && |js| == |ms| + 1 && js[0] == START
    && forall i :: 0 <= i < |ms| ==> JointStep(js[i], ms[i], js[i + 1], messageOf)
  }

  // ----- What every step keeps -----

  ghost predicate HasKey(rows: map<Id, Row>, key: string) {
    exists id :: id in rows && rows[id].key == Some(key)
  }

  /** The rows of the first `n` calls are there. */
  ghost predicate Made(rows: map<Id, Row>, m: Message, n: nat) {
    n <= |m.plan| && forall i :: 0 <= i < n ==> HasKey(rows, Idem(m.ctx, m.plan[i].tag))
  }

  ghost predicate RightRow(rows: map<Id, Row>, id: Id, messageOf: MessageOf)
    requires id in rows
  {
    rows[id].key.Some? ==>
      forall r, i, content :: Plans(messageOf, r, i, rows[id].key.value, content) ==> ContentOf(rows[id]) == content
  }

  ghost predicate Coherent(j: Joint, messageOf: MessageOf) {
    && Kafka.Safe(j.kafka)
    && (forall r :: r in j.kafka.succeeded ==> Made(j.service.rows, messageOf(r), |messageOf(r).plan|))
    && (forall sid, r :: InHand(j, sid, r) && j.progress[sid].Some? ==>
          Made(j.service.rows, messageOf(r), j.progress[sid].value))
    && (forall id :: id in j.service.rows ==> RightRow(j.service.rows, id, messageOf))
  }

  lemma MadeStays(s: Protocol.State, e: Protocol.Event, s': Protocol.State, m: Message, n: nat)
    requires Protocol.Step(s, e, s') && Made(s.rows, m, n)
    ensures Made(s'.rows, m, n)
  {
    forall i | 0 <= i < n
      ensures HasKey(s'.rows, Idem(m.ctx, m.plan[i].tag))
    {
      assert HasKey(s.rows, Idem(m.ctx, m.plan[i].tag));
      var id :| id in s.rows && s.rows[id].key == Some(Idem(m.ctx, m.plan[i].tag));
      RowsStay(s, e, s', id);
    }
  }

  /** A call that returned Ok has left its key in the table. */
  lemma CallMakes(s: Protocol.State, e: Protocol.Event, s': Protocol.State, m: Message, n: nat)
    requires Protocol.Step(s, e, s') && Made(s.rows, m, n) && n < |m.plan|
    requires e.Queue? && e.fault == Fine && e.request.key == Some(Idem(m.ctx, m.plan[n].tag))
    ensures Made(s'.rows, m, n + 1)
  {
    MadeStays(s, e, s', m, n);
    assert s'.rows[e.saved].key == e.request.key;
  }

  /** Two plans for one key agree. */
  lemma OneMeaning(messageOf: MessageOf, r: Kafka.Record, i: nat, c: Content, q: Kafka.Record, k: nat, d: Content,
                   key: string)
    requires Sound(messageOf) && Plans(messageOf, r, i, key, c) && Plans(messageOf, q, k, key, d)
    ensures c == d
  {
    KeyMeansOne(Ask(messageOf(r), i), Ask(messageOf(q), k));
  }

  lemma RowsStayRight(s: Protocol.State, e: Protocol.Event, s': Protocol.State, messageOf: MessageOf, id: Id)
    requires Protocol.Step(s, e, s') && id in s'.rows
    requires forall i :: i in s.rows ==> RightRow(s.rows, i, messageOf)
    requires e.Queue? && e.request.key.Some? ==>
      forall r, i, content :: Plans(messageOf, r, i, e.request.key.value, content) ==> ContentOf(e.request) == content
    ensures RightRow(s'.rows, id, messageOf)
  {
    if id in s.rows {
      RowsStay(s, e, s', id);
      assert RightRow(s.rows, id, messageOf);
    } else {
      OnlyQueueAdds(s, e, s', id);
    }
  }

  lemma ServiceKeepsCoherent(j: Joint, e: Protocol.Event, j': Joint, messageOf: MessageOf)
    requires Coherent(j, messageOf) && ServiceStep(j, e, j', messageOf)
    ensures Coherent(j', messageOf)
  {
    forall id | id in j'.service.rows
      ensures RightRow(j'.service.rows, id, messageOf)
    {
      RowsStayRight(j.service, e, j'.service, messageOf, id);
    }
    forall r | r in j'.kafka.succeeded
      ensures Made(j'.service.rows, messageOf(r), |messageOf(r).plan|)
    {
      MadeStays(j.service, e, j'.service, messageOf(r), |messageOf(r).plan|);
    }
    forall sid, r | InHand(j', sid, r) && j'.progress[sid].Some?
      ensures Made(j'.service.rows, messageOf(r), j'.progress[sid].value)
    {
      assert InHand(j, sid, r);
      MadeStays(j.service, e, j'.service, messageOf(r), j.progress[sid].value);
    }
  }

  lemma CallKeepsCoherent(j: Joint, sid: nat, e: Protocol.Event, j': Joint, messageOf: MessageOf)
    requires Sound(messageOf) && Coherent(j, messageOf) && CallStep(j, sid, e, j', messageOf)
    ensures Coherent(j', messageOf)
  {
    var r0, n := j.kafka.sessions[sid].worker.record, j.progress[sid].value;
    forall id | id in j'.service.rows
      ensures RightRow(j'.service.rows, id, messageOf)
    {
      forall r, i, content | Plans(messageOf, r, i, e.request.key.value, content)
        ensures ContentOf(e.request) == content
      {
        OneMeaning(messageOf, r0, n, ContentOf(e.request), r, i, content, e.request.key.value);
      }
      RowsStayRight(j.service, e, j'.service, messageOf, id);
    }
    forall r | r in j'.kafka.succeeded
      ensures Made(j'.service.rows, messageOf(r), |messageOf(r).plan|)
    {
      MadeStays(j.service, e, j'.service, messageOf(r), |messageOf(r).plan|);
    }
    forall other, r | InHand(j', other, r) && j'.progress[other].Some?
      ensures Made(j'.service.rows, messageOf(r), j'.progress[other].value)
    {
      assert InHand(j, other, r);
      if other == sid {
        CallMakes(j.service, e, j'.service, messageOf(r), n);
      } else {
        MadeStays(j.service, e, j'.service, messageOf(r), j.progress[other].value);
      }
    }
  }

  /** Whoever holds a record after a step held it before, or has just taken it. */
  lemma HandsChange(s: Kafka.State, k: Kafka.Event, sid: nat, r: Kafka.Record)
    requires Kafka.Enabled(s, k)
    requires sid in Kafka.Next(s, k).sessions && Kafka.Next(s, k).sessions[sid].worker == Kafka.Busy(r)
    ensures (k.Take? && k.sid == sid) || (sid in s.sessions && s.sessions[sid].worker == Kafka.Busy(r))
  {
  }

  lemma SuccessesChange(s: Kafka.State, k: Kafka.Event, r: Kafka.Record)
    requires Kafka.Enabled(s, k) && r in Kafka.Next(s, k).succeeded
    ensures r in s.succeeded || (k.Finish? && k.ok && r == s.sessions[k.sid].worker.record)
  {
  }

  lemma ConsumerKeepsCoherent(j: Joint, k: Kafka.Event, j': Joint, messageOf: MessageOf)
    requires Coherent(j, messageOf) && ConsumerStep(j, k, j', messageOf)
    ensures Coherent(j', messageOf)
  {
    Kafka.StepKeepsSafe(j.kafka, k);
    forall r | r in j'.kafka.succeeded
      ensures Made(j'.service.rows, messageOf(r), |messageOf(r).plan|)
    {
      SuccessesChange(j.kafka, k, r);
    }
    forall sid, r | InHand(j', sid, r) && j'.progress[sid].Some?
      ensures Made(j'.service.rows, messageOf(r), j'.progress[sid].value)
    {
      HandsChange(j.kafka, k, sid, r);
      assert !(k.Take? && k.sid == sid) ==> InHand(j, sid, r);
    }
  }

  lemma {:induction false} CoherentEver(js: seq<Joint>, ms: seq<Move>, messageOf: MessageOf, n: nat)
    requires Sound(messageOf) && JointRun(js, ms, messageOf) && n < |js|
    ensures Coherent(js[n], messageOf)
    decreases n
  {
    if n > 0 {
      CoherentEver(js, ms, messageOf, n - 1);
      assert JointStep(js[n - 1], ms[n - 1], js[n], messageOf);
      match ms[n - 1]
      case Consumer(k) => ConsumerKeepsCoherent(js[n - 1], k, js[n], messageOf);
      case Service(e) => ServiceKeepsCoherent(js[n - 1], e, js[n], messageOf);
      case Call(sid, e) => CallKeepsCoherent(js[n - 1], sid, e, js[n], messageOf);
    } else {
      Kafka.SafeEver([]);
    }
  }

  // ----- What a committed offset says -----

  /** A row of the table is this notification. */
  predicate IsRow(rows: map<Id, Row>, id: Id, key: string, content: Content) {
    id in rows && rows[id].key == Some(key) && ContentOf(rows[id]) == content
  }

  /** In every run of the consumers and the service together, with overlapping and crashing sessions, failing
      calls, redelivered events and deliveries under way: each notification planned for a record of which some
      handling succeeded, committed or not and however often it failed before or after, has a row in the table,
      under its key and with its content. */
  lemma SucceededIsQueued(js: seq<Joint>, ms: seq<Move>, messageOf: MessageOf, n: nat, r: Kafka.Record, i: nat)
    returns (id: Id)
    requires Sound(messageOf) && JointRun(js, ms, messageOf) && n < |js|
    requires r in js[n].kafka.succeeded && i < |messageOf(r).plan|
    ensures var m := messageOf(r);
      IsRow(js[n].service.rows, id, Idem(m.ctx, m.plan[i].tag), m.plan[i].content)
  {
    CoherentEver(js, ms, messageOf, n);
    var j, m := js[n], messageOf(r);
    assert Made(j.service.rows, m, |m.plan|);
    var key := Idem(m.ctx, m.plan[i].tag);
    assert HasKey(j.service.rows, key);
    id :| id in j.service.rows && j.service.rows[id].key == Some(key);
    assert RightRow(j.service.rows, id, messageOf) && Plans(messageOf, r, i, key, m.plan[i].content);
  }

  /** No handler returned an error. */
  ghost predicate NoError(ms: seq<Move>) {
    forall i :: 0 <= i < |ms| && ms[i].Consumer? && ms[i].k.Finish? ==> ms[i].k.ok
  }

  /** A stored record below the committed position has been handled: some handling succeeded, or all failed. */
  lemma CommittedGotThrough(js: seq<Joint>, ms: seq<Move>, messageOf: MessageOf, n: nat, r: Kafka.Record)
    requires Sound(messageOf) && JointRun(js, ms, messageOf) && n < |js|
    requires r in js[n].kafka.log && r.offset < Kafka.At(js[n].kafka.committed, r.partition)
    ensures r in js[n].kafka.succeeded || r in js[n].kafka.failed
  {
    CoherentEver(js, ms, messageOf, n);
    var k := js[n].kafka;
    assert Kafka.CommitSafe(k, r.partition, Kafka.At(k.committed, r.partition));
  }

  /** So unless all have failed, this goes for every stored record below the committed position. */
  lemma CommittedIsQueuedUnlessFailed(js: seq<Joint>, ms: seq<Move>, messageOf: MessageOf, n: nat,
                                      r: Kafka.Record, i: nat)
    returns (id: Id)
    requires Sound(messageOf) && JointRun(js, ms, messageOf) && n < |js|
    requires r in js[n].kafka.log && r.offset < Kafka.At(js[n].kafka.committed, r.partition)
    requires r !in js[n].kafka.failed || r in js[n].kafka.succeeded
    requires i < |messageOf(r).plan|
    ensures var m := messageOf(r);
      IsRow(js[n].service.rows, id, Idem(m.ctx, m.plan[i].tag), m.plan[i].content)
  {
    CommittedGotThrough(js, ms, messageOf, n, r);
    id := SucceededIsQueued(js, ms, messageOf, n, r, i);
  }

  lemma {:induction false} NothingFails(js: seq<Joint>, ms: seq<Move>, messageOf: MessageOf, n: nat)
    requires JointRun(js, ms, messageOf) && NoError(ms) && n < |js|
    ensures js[n].kafka.failed == {}
    decreases n
  {
    if n > 0 {
      NothingFails(js, ms, messageOf, n - 1);
      assert JointStep(js[n - 1], ms[n - 1], js[n], messageOf);
      if ms[n - 1].Consumer? {
        Kafka.StepFails(js[n - 1].kafka, ms[n - 1].k);
      }
    }
  }

  /** Without a handling error this goes for all stored records below the committed position. */
  lemma CommittedIsQueued(js: seq<Joint>, ms: seq<Move>, messageOf: MessageOf, n: nat, r: Kafka.Record, i: nat)
    returns (id: Id)
    requires Sound(messageOf) && JointRun(js, ms, messageOf) && NoError(ms) && n < |js|
    requires r in js[n].kafka.log && r.offset < Kafka.At(js[n].kafka.committed, r.partition)
    requires i < |messageOf(r).plan|
    ensures var m := messageOf(r);
      IsRow(js[n].service.rows, id, Idem(m.ctx, m.plan[i].tag), m.plan[i].content)
  {
    NothingFails(js, ms, messageOf, n);
    id := CommittedIsQueuedUnlessFailed(js, ms, messageOf, n, r, i);
  }

  lemma {:induction false} RowsStayAlong(states: seq<Protocol.State>, events: seq<Protocol.Event>, n: nat, id: Id,
                                         key: string, content: Content)
    requires Protocol.Execution(states, events) && n < |states| && IsRow(states[0].rows, id, key, content)
    ensures IsRow(states[n].rows, id, key, content)
    decreases n
  {
    if n > 0 {
      RowsStayAlong(states, events, n - 1, id, key, content);
      RowsStay(states[n - 1], events[n - 1], states[n], id);
    }
  }

  lemma Grown(states: seq<Protocol.State>, events: seq<Protocol.Event>, e: Protocol.Event, s': Protocol.State)
    requires Protocol.Run(states, events) && Protocol.Step(states[|events|], e, s')
    ensures Protocol.Run(states + [s'], events + [e])
  {
    var states', events' := states + [s'], events + [e];
    forall i | 0 <= i < |events'|
      ensures Protocol.Step(states'[i], events'[i], states'[i + 1])
    {
    }
  }

  /** The service's part of a joint run is a run of the delivery protocol. */
  lemma {:induction false} ServiceRuns(js: seq<Joint>, ms: seq<Move>, messageOf: MessageOf, n: nat)
    returns (states: seq<Protocol.State>, events: seq<Protocol.Event>)
    requires JointRun(js, ms, messageOf) && n < |js|
    ensures Protocol.Run(states, events) && states[|events|] == js[n].service
    decreases n
  {
    if n == 0 {
      states, events := [Protocol.INITIAL], [];
    } else {
      states, events := ServiceRuns(js, ms, messageOf, n - 1);
      var m := ms[n - 1];
      assert JointStep(js[n - 1], m, js[n], messageOf);
      if !m.Consumer? {
        Grown(states, events, m.e, js[n].service);
        states, events := states + [js[n].service], events + [m.e];
      }
    }
  }

  /** Whatever has overlapped, failed or crashed before: the service is ready once no row is orphaned and no
      dispatch is past its load. */
  lemma QuietServiceIsReady(js: seq<Joint>, ms: seq<Move>, messageOf: MessageOf, n: nat)
    requires JointRun(js, ms, messageOf) && n < |js| && Carriers.NoOrphan(js[n].service)
    requires forall id :: Retries.Narrow(js[n].service, id, 0)
    ensures Drain.Ready(js[n].service)
  {
    var states, events := ServiceRuns(js, ms, messageOf, n);
    Drain.RunsAreReady(states, events, |events|);
  }

  /** At rest after these steps of undisturbed work, with this row Sent or given up. */
  ghost predicate Settles(s: Protocol.State, states: seq<Protocol.State>, events: seq<Protocol.Event>, id: Id,
                          key: string, content: Content)
  {
    && Protocol.Execution(states, events) && states[0] == s && Retries.Serialised(states)
    && (forall e :: e in events ==> Drain.Working(e)) && |events| <= Drain.StepsLeft(s)
    && var end := states[|events|];
    && Drain.AtRest(end) && IsRow(end.rows, id, key, content)
    && (end.rows[id].status == Sent || end.rows[id].status == PermanentFailure)
  }

  /** If the service is then left to work without overlapping dispatches and without breaking, it comes to rest
      with each such notification Sent or given up as PermanentFailure. */
  lemma SucceededIsDelivered(js: seq<Joint>, ms: seq<Move>, messageOf: MessageOf, n: nat, r: Kafka.Record, i: nat)
    returns (states: seq<Protocol.State>, events: seq<Protocol.Event>, id: Id)
    requires Sound(messageOf) && JointRun(js, ms, messageOf) && n < |js| && Drain.Ready(js[n].service)
    requires r in js[n].kafka.succeeded && i < |messageOf(r).plan|
    ensures var m := messageOf(r);
      Settles(js[n].service, states, events, id, Idem(m.ctx, m.plan[i].tag), m.plan[i].content)
  {
    id := SucceededIsQueued(js, ms, messageOf, n, r, i);
    var start := [js[n].service];
    assert Retries.Serialised(start);
    states, events := Drain.Drains(start, []);
    assert start[0] == states[0];
    RowsStayAlong(states, events, |events|, id, Idem(messageOf(r).ctx, messageOf(r).plan[i].tag),
                  messageOf(r).plan[i].content);
  }

  lemma CommittedIsDelivered(js: seq<Joint>, ms: seq<Move>, messageOf: MessageOf, n: nat, r: Kafka.Record, i: nat)
    returns (states: seq<Protocol.State>, events: seq<Protocol.Event>, id: Id)
    requires Sound(messageOf) && JointRun(js, ms, messageOf) && n < |js| && Drain.Ready(js[n].service)
    requires r in js[n].kafka.log && r.offset < Kafka.At(js[n].kafka.committed, r.partition)
    requires r !in js[n].kafka.failed || r in js[n].kafka.succeeded
    requires i < |messageOf(r).plan|
    ensures var m := messageOf(r);
      Settles(js[n].service, states, events, id, Idem(m.ctx, m.plan[i].tag), m.plan[i].content)
  {
    CommittedGotThrough(js, ms, messageOf, n, r);
    states, events, id := SucceededIsDelivered(js, ms, messageOf, n, r, i);
  }
}
