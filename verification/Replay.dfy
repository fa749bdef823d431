/** Redelivered, reordered and half-handled events: which notifications exist in the end. */
module Replay {
  import opened Domain
  import opened Keys
  import opened Events
  import opened Repository

  /** The rows, by key: the first call with a key decides what it stands for. */
  type Store = map<string, Content>

  function Created(store: Store, key: string, content: Content): Store {
    if key in store then store else store[key := content]
  }

  /** A message and the calls its handler makes for it. */
  datatype Message = Message(ctx: MsgCtx, plan: seq<Planned>)

  /** Call `i` of some delivery of the message takes effect. */
  datatype Ask = Ask(message: Message, i: nat)

  predicate IsAsk(a: Ask) {
    a.i < |a.message.plan|
  }

  function KeyOf(a: Ask): string
    requires IsAsk(a)
  {
    Idem(a.message.ctx, a.message.plan[a.i].tag)
  }

  function ContentFor(a: Ask): Content
    requires IsAsk(a)
  {
    a.message.plan[a.i].content
  }

  /** The calls of any number of deliveries in the order they take effect: redelivered, cut off, interleaved. */
  predicate Asked(asks: seq<Ask>) {
    forall a :: a in asks ==> IsAsk(a)
  }

  function After(store: Store, asks: seq<Ask>): Store
    requires Asked(asks)
  {
    if asks == [] then store
    else
      var last := asks[|asks| - 1];
      Created(After(store, asks[..|asks| - 1]), KeyOf(last), ContentFor(last))
  }

  function StoreOf(asks: seq<Ask>): Store
    requires Asked(asks)
  {
    After(map[], asks)
  }

  lemma OneMoreAsk(store: Store, asks: seq<Ask>, a: Ask)
    requires Asked(asks) && IsAsk(a)
    ensures Asked(asks + [a]) && After(store, asks + [a]) == Created(After(store, asks), KeyOf(a), ContentFor(a))
  {
    assert (asks + [a])[..|asks|] == asks;
  }

  /** The first `n` calls of one delivery. */
  function AsksOf(m: Message, n: nat): (asks: seq<Ask>)
    requires n <= |m.plan|
    ensures Asked(asks)
  {
    if n == 0 then [] else AsksOf(m, n - 1) + [Ask(m, n - 1)]
  }

  lemma {:induction false} AsksOfExactly(m: Message, n: nat)
    requires n <= |m.plan|
    ensures forall a :: a in AsksOf(m, n) <==> a.message == m && a.i < n
    decreases n
  {
    if n > 0 {
      AsksOfExactly(m, n - 1);
    }
  }

  // ----- The store is what the table's keyed rows say -----

  function ContentOf(row: Row): Content {
    Content(row.channel, row.recipient, row.template, row.variables)
  }

  ghost predicate Shows(rows: map<Id, Row>, store: Store) {
    && (forall id :: id in rows && rows[id].key.Some? ==>
          rows[id].key.value in store && store[rows[id].key.value] == ContentOf(rows[id]))
    && (forall key :: key in store ==> exists id :: id in rows && rows[id].key == Some(key))
  }

  /** The table's upsert on the key is the store's first-call-wins. */
  lemma UpsertIsFirstWins(rows: map<Id, Row>, newId: Id, request: Row, rows': map<Id, Row>, saved: Id, store: Store)
    requires Shows(rows, store) && newId !in rows && request.key.Some?
    requires Creates(rows, newId, request, rows', saved)
    ensures Shows(rows', Created(store, request.key.value, ContentOf(request)))
  {
    var key := request.key.value;
    if KeyTaken(rows, request.key) {
      assert key in store;
    } else {
      assert key !in store;
      assert rows'[newId].key == Some(key);
      forall k | k in Created(store, key, ContentOf(request))
        ensures exists id :: id in rows' && rows'[id].key == Some(k)
      {
        if k != key {
          var id :| id in rows && rows[id].key == Some(k);
          assert rows'[id] == rows[id];
        }
      }
    }
  }

  /** Deliveries, sweeps and read marks do not touch it. */
  lemma WritesKeepContent(row: Row, w: Write, threshold: int, dbNow: int)
    ensures ContentOf(Written(row, w, dbNow)) == ContentOf(row) && Written(row, w, dbNow).key == row.key
    ensures ContentOf(Unstuck(row, threshold, dbNow)) == ContentOf(row) && Unstuck(row, threshold, dbNow).key == row.key
  {
  }

  // ----- The handler loop -----

  class Intake {
    var entries: Store

    constructor ()
      ensures entries == map[]
    {
      entries := map[];
    }

    method Queue(key: string, content: Content)
      modifies this
      ensures entries == Created(old(entries), key, content)
    {
      if key !in entries {
        entries := entries[key := content];
      }
    }

    method Next(ghost start: Store, m: Message, i: nat, fault: Fault) returns (ok: bool, applied: nat)
      requires i < |m.plan| && entries == After(start, AsksOf(m, i))
      modifies this
      ensures ok == (fault == Fine) && applied == (if fault == Unapplied then i else i + 1)
      ensures entries == After(start, AsksOf(m, applied))
    {
      ok, applied := fault == Fine, i;
      if fault != Unapplied {
        OneMoreAsk(start, AsksOf(m, i), Ask(m, i));
        Queue(Idem(m.ctx, m.plan[i].tag), m.plan[i].content);
        applied := i + 1;
      }
    }

    /** The handler's calls in order, up to the first error: `faults(i)` is how call `i` ends. An Ok means that
        every call took effect. */
    method Handle(m: Message, faults: nat -> Fault) returns (ok: bool, applied: nat)
      modifies this
      ensures applied <= |m.plan| && (ok ==> applied == |m.plan|)
      ensures entries == After(old(entries), AsksOf(m, applied))
      ensures ok <==> forall i :: 0 <= i < |m.plan| ==> faults(i) == Fine
      ensures !ok ==> exists i: nat :: i < |m.plan| && StopsAt(faults, i, applied)
    {
      ghost var start := entries;
      var i := 0;
      ok, applied := true, 0;
      while i < |m.plan| && ok
        invariant 0 <= i <= |m.plan| && applied <= |m.plan|
        invariant entries == After(start, AsksOf(m, applied))
        invariant ok ==> applied == i
        invariant ok ==> forall j :: 0 <= j < i ==> faults(j) == Fine
        invariant !ok ==> exists j: nat :: j < |m.plan| && StopsAt(faults, j, applied)
        decreases |m.plan| - i, ok
      {
        ok, applied := Next(start, m, i, faults(i));
        assert !ok ==> StopsAt(faults, i, applied);
        i := i + 1;
      }
    }
  }

  /** Call `i` is the first that fails, and `applied` counts it if it took effect nevertheless. */
  ghost predicate StopsAt(faults: nat -> Fault, i: nat, applied: nat) {
    && faults(i) != Fine && (forall j :: 0 <= j < i ==> faults(j) == Fine)
    && applied == if faults(i) == Applied then i + 1 else i
  }

  // ----- What the store holds -----

  ghost predicate Wants(a: Ask, key: string, content: Content) {
    IsAsk(a) && key == KeyOf(a) && content == ContentFor(a)
  }

  /** Calls keep what is there, leave all their keys, and add nothing but what they ask for. */
  lemma {:induction false} AskedExactly(store: Store, asks: seq<Ask>)
    requires Asked(asks)
    ensures var after := After(store, asks);
      && (forall key :: key in store ==> key in after && after[key] == store[key])
      && (forall a :: a in asks ==> KeyOf(a) in after)
      && (forall key :: key in after && key !in store ==> exists a :: a in asks && Wants(a, key, after[key]))
    decreases |asks|
  {
    if asks != [] {
      var rest, last := asks[..|asks| - 1], asks[|asks| - 1];
      AskedExactly(store, rest);
      assert asks == rest + [last];
      var before, after := After(store, rest), After(store, asks);
      forall key | key in after && key !in store
        ensures exists a :: a in asks && Wants(a, key, after[key])
      {
        if key in before {
          var a :| a in rest && Wants(a, key, before[key]);
          assert a in asks;
        } else {
          assert Wants(last, key, after[key]);
        }
      }
    }
  }

  lemma WasAsked(asks: seq<Ask>, key: string) returns (a: Ask)
    requires Asked(asks) && key in StoreOf(asks)
    ensures a in asks && Wants(a, key, StoreOf(asks)[key])
  {
    AskedExactly(map[], asks);
    a :| a in asks && Wants(a, key, StoreOf(asks)[key]);
  }

  lemma KeyStays(asks: seq<Ask>, a: Ask)
    requires Asked(asks) && a in asks
    ensures KeyOf(a) in StoreOf(asks)
  {
    AskedExactly(map[], asks);
  }

  // ----- Convergence -----

  predicate Twin(m1: Message, m2: Message) {
    SameEvent(m1.ctx, m2.ctx) && m1.plan == m2.plan
  }

  ghost predicate TookEffect(asks: seq<Ask>, m: Message, i: nat) {
    exists a :: a in asks && a.i == i && Twin(a.message, m)
  }

  /** Every call of the message took effect at least once, in whichever delivery. */
  ghost predicate Through(asks: seq<Ask>, m: Message) {
    forall i :: 0 <= i < |m.plan| ==> TookEffect(asks, m, i)
  }

  ghost predicate AllThrough(asks: seq<Ask>) {
    forall a :: a in asks ==> Through(asks, a.message)
  }

  /** Event ids are colon-free, each plan's tags are apart, and equal ids (or coordinates) mean equal plans. */
  ghost predicate Consistent(asks: seq<Ask>) {
    && (forall a :: a in asks ==> Identified(a.message.ctx) && WellTagged(a.message.plan))
    && (forall a, b :: a in asks && b in asks && SameEvent(a.message.ctx, b.message.ctx) ==>
          a.message.plan == b.message.plan)
  }

  /** A key stands for one thing, whichever deliveries ask for it. */
  lemma KeyMeansOne(a: Ask, b: Ask)
    requires IsAsk(a) && IsAsk(b) && KeyOf(a) == KeyOf(b)
    requires Identified(a.message.ctx) && Identified(b.message.ctx)
    requires WellTagged(a.message.plan) && WellTagged(b.message.plan)
    requires SameEvent(a.message.ctx, b.message.ctx) ==> a.message.plan == b.message.plan
    ensures a.i == b.i && Twin(a.message, b.message)
  {
    var p, q := a.message.plan, b.message.plan;
    assert p[a.i] in p && q[b.i] in q;
    KeyCollides(a.message.ctx, p[a.i].tag, b.message.ctx, q[b.i].tag);
    assert p == q;
    assert a.i == b.i;
  }

  lemma TwinsShareKeys(a: Ask, b: Ask)
    requires IsAsk(a) && a.i == b.i && Twin(a.message, b.message)
    ensures IsAsk(b) && KeyOf(a) == KeyOf(b) && ContentFor(a) == ContentFor(b)
  {
  }

  ghost predicate Holds(store: Store, key: string, content: Content) {
    key in store && store[key] == content
  }

  /** A call that took effect decides its key for good. */
  lemma AskIsHeld(asks: seq<Ask>, a: Ask)
    requires Asked(asks) && Consistent(asks) && a in asks
    ensures Holds(StoreOf(asks), KeyOf(a), ContentFor(a))
  {
    KeyStays(asks, a);
    var b := WasAsked(asks, KeyOf(a));
    assert SameEvent(a.message.ctx, b.message.ctx) ==> a.message.plan == b.message.plan;
    KeyMeansOne(a, b);
  }

  /** Some delivery plans this content for this key. */
  ghost predicate IsPlanned(asks: seq<Ask>, b: Ask, key: string, content: Content) {
    Wants(b, key, content) && exists a :: a in asks && a.message == b.message
  }

  lemma PlannedIsHeld(asks: seq<Ask>, b: Ask, key: string, content: Content)
    requires Asked(asks) && Consistent(asks) && AllThrough(asks) && IsPlanned(asks, b, key, content)
    ensures Holds(StoreOf(asks), key, content)
  {
    var a :| a in asks && a.message == b.message;
    assert Through(asks, b.message) && TookEffect(asks, b.message, b.i);
    var c :| c in asks && c.i == b.i && Twin(c.message, b.message);
    TwinsShareKeys(c, b);
    AskIsHeld(asks, c);
  }

  /** Whatever the duplicates, the order, the interleaving and the failures on the way: once every event got
      through, the store holds exactly the calls of all events, each key with the content its event plans. */
  lemma Convergence(asks: seq<Ask>, key: string, content: Content)
    requires Asked(asks) && Consistent(asks) && AllThrough(asks)
    ensures Holds(StoreOf(asks), key, content) <==> exists b :: IsPlanned(asks, b, key, content)
  {
    if Holds(StoreOf(asks), key, content) {
      var a := WasAsked(asks, key);
      assert IsPlanned(asks, a, key, content);
    }
    if b :| IsPlanned(asks, b, key, content) {
      PlannedIsHeld(asks, b, key, content);
    }
  }

  // ----- The clean run -----

  /** Each message handled once, in order, without a failure. */
  function Clean(ms: seq<Message>): (asks: seq<Ask>)
    ensures Asked(asks)
  {
    if ms == [] then []
    else
      var n := |ms| - 1;
      Clean(ms[..n]) + AsksOf(ms[n], |ms[n].plan|)
  }

  lemma {:induction false} CleanExactly(ms: seq<Message>)
    ensures forall a :: a in Clean(ms) <==> a.message in ms && IsAsk(a)
    decreases |ms|
  {
    if ms != [] {
      var n := |ms| - 1;
      CleanExactly(ms[..n]);
      AsksOfExactly(ms[n], |ms[n].plan|);
      assert ms == ms[..n] + [ms[n]];
    }
  }

  /** The histories are about the same events. */
  ghost predicate SameEvents(asks: seq<Ask>, ms: seq<Message>) {
    && (forall a :: a in asks ==> exists m :: m in ms && Twin(a.message, m))
    && (forall m :: m in ms ==> Through(asks, m))
  }

  lemma CleanIsConsistent(asks: seq<Ask>, ms: seq<Message>)
    requires Asked(asks) && Consistent(asks) && SameEvents(asks, ms)
    requires forall m :: m in ms ==> Identified(m.ctx)
    ensures Consistent(Clean(ms))
  {
    CleanExactly(ms);
    forall a | a in Clean(ms)
      ensures exists b :: b in asks && Twin(b.message, a.message)
    {
      assert Through(asks, a.message) && TookEffect(asks, a.message, a.i);
    }
    forall a, b | a in Clean(ms) && b in Clean(ms) && SameEvent(a.message.ctx, b.message.ctx)
      ensures a.message.plan == b.message.plan
    {
      var c :| c in asks && Twin(c.message, a.message);
      var d :| d in asks && Twin(d.message, b.message);
      assert SameEvent(c.message.ctx, d.message.ctx);
    }
  }

  lemma CleanHolds(asks: seq<Ask>, ms: seq<Message>, key: string)
    requires Asked(asks) && Consistent(asks) && SameEvents(asks, ms) && key in StoreOf(asks)
    requires forall m :: m in ms ==> Identified(m.ctx)
    ensures Holds(StoreOf(Clean(ms)), key, StoreOf(asks)[key])
  {
    CleanIsConsistent(asks, ms);
    CleanExactly(ms);
    var a := WasAsked(asks, key);
    var m :| m in ms && Twin(a.message, m);
    TwinsShareKeys(a, Ask(m, a.i));
    AskIsHeld(Clean(ms), Ask(m, a.i));
  }

  lemma CleanHasNoMore(asks: seq<Ask>, ms: seq<Message>, key: string)
    requires Asked(asks) && SameEvents(asks, ms) && key in StoreOf(Clean(ms))
    ensures key in StoreOf(asks)
  {
    CleanExactly(ms);
    var b := WasAsked(Clean(ms), key);
    assert Through(asks, b.message) && TookEffect(asks, b.message, b.i);
    var a :| a in asks && a.i == b.i && Twin(a.message, b.message);
    TwinsShareKeys(a, b);
    KeyStays(asks, a);
  }

  /** However the deliveries of these events went, once each got through the store is the one a clean run, each
      event handled once, leaves. */
  lemma ConvergesToClean(asks: seq<Ask>, ms: seq<Message>)
    requires Asked(asks) && Consistent(asks) && SameEvents(asks, ms)
    requires forall m :: m in ms ==> Identified(m.ctx)
    ensures StoreOf(asks) == StoreOf(Clean(ms))
  {
    var store, clean := StoreOf(asks), StoreOf(Clean(ms));
    forall key | key in store
      ensures Holds(clean, key, store[key])
    {
      CleanHolds(asks, ms, key);
    }
    forall key | key in clean
      ensures key in store
    {
      CleanHasNoMore(asks, ms, key);
    }
  }

  /** So any two histories of the same events end alike. */
  lemma SameEventsSameStore(asks: seq<Ask>, others: seq<Ask>, ms: seq<Message>)
    requires Asked(asks) && Consistent(asks) && SameEvents(asks, ms)
    requires Asked(others) && Consistent(others) && SameEvents(others, ms)
    requires forall m :: m in ms ==> Identified(m.ctx)
    ensures StoreOf(asks) == StoreOf(others)
  {
    ConvergesToClean(asks, ms);
    ConvergesToClean(others, ms);
  }

  /** The service's handlers meet the premises: deliveries of events with colon-free ids, where equal ids or
      coordinates mean equal events. */
  lemma HandlersAreConsistent(env: Env, asks: seq<Ask>, source: Message -> Event)
    requires forall a :: a in asks ==> Identified(a.message.ctx) && a.message.plan == Plan(env, source(a.message))
    requires forall a, b :: a in asks && b in asks && SameEvent(a.message.ctx, b.message.ctx) ==>
               source(a.message) == source(b.message)
    ensures Consistent(asks)
  {
    forall a | a in asks
      ensures WellTagged(a.message.plan)
    {
      PlansWellTagged(env, source(a.message));
    }
  }

  // ----- The sign-in alert does not converge -----

  /** A delivery of some sign-in of the user from the address: the counter is out of reach, or it was bumped
      first and so many of the two calls took effect. */
  datatype Attempt = CacheDown | Counted(ctx: MsgCtx, applied: nat)

  const SIGN_IN := "new_login"
  const SIGN_IN_PUSH := "new_login:push"

  function LoginPlan(env: Env, uid: Id, username: string, ip: string): seq<Planned> {
    [Socket(env, uid, "new_login.txt.tera", map["username" := Text(username), "ip_address" := Text(ip)], SIGN_IN),
     PushTo(env, uid, "Security Alert: New Sign-In",
            "Your account was signed in from a new IP address (" + ip + ").", SIGN_IN_PUSH)]
  }

  /** The labels of the sign-in alert, which `Plan` leaves out, are told apart like the others. */
  lemma LoginWellTagged(env: Env, uid: Id, username: string, ip: string)
    ensures WellTagged(LoginPlan(env, uid, username, ip))
  {
    assert SIGN_IN[0] == SIGN_IN_PUSH[0] == 'n' && Keys.KAFKA[0] == 'k';
  }

  ghost predicate Mentions(body: string, text: string) {
    exists pre, post :: body == pre + text + post
  }

  lemma AnyMention(pre: string, text: string, post: string)
    ensures Mentions(pre + text + post, text)
  {
  }

  /** Both calls are for the user who signed in, one in the app and one pushed, and name the address. */
  lemma LoginIsFor(env: Env, uid: Id, username: string, ip: string)
    ensures var plan := LoginPlan(env, uid, username, ip);
      && |plan| == 2 && plan[0].content.recipient == plan[1].content.recipient == env.showUuid(uid)
      && plan[0].content.channel == WebSocket && plan[1].content.channel == Channel.Push
      && plan[0].content.variables == map["username" := Text(username), "ip_address" := Text(ip)]
      && "body" in plan[1].content.variables
      && Mentions(plan[1].content.variables["body"].text, ip)
  {
    var pre, post := "Your account was signed in from a new IP address (", ").";
    assert LoginPlan(env, uid, username, ip)[1].content.variables["body"].text == pre + ip + post;
    AnyMention(pre, ip, post);
  }

  predicate Countable(plan: seq<Planned>, attempts: seq<Attempt>) {
    forall a :: a in attempts && a.Counted? ==> Identified(a.ctx) && a.applied <= |plan|
  }

  /** The counter of this user and address and the store after these deliveries, of one sign-in or of several:
      only the first count alerts. */
  function LoginRun(plan: seq<Planned>, attempts: seq<Attempt>): (nat, Store)
    requires Countable(plan, attempts)
  {
    if attempts == [] then (0, map[])
    else
      var (count, store) := LoginRun(plan, attempts[..|attempts| - 1]);
      match attempts[|attempts| - 1]
      case CacheDown => (count, store)
      case Counted(ctx, applied) =>
        (count + 1, if count + 1 > 1 then store else After(store, AsksOf(Message(ctx, plan), applied)))
  }

  function FirstCounted(attempts: seq<Attempt>): (first: Option<Attempt>)
    ensures first.Some? ==> first.value in attempts && first.value.Counted?
  {
    if attempts == [] then None
    else if attempts[0].Counted? then Some(attempts[0])
    else FirstCounted(attempts[1..])
  }

  lemma {:induction false} FirstCountedPrefix(attempts: seq<Attempt>, a: Attempt)
    ensures FirstCounted(attempts + [a])
         == if FirstCounted(attempts).Some? then FirstCounted(attempts)
            else if a.Counted? then Some(a) else None
    decreases |attempts|
  {
    if attempts != [] && attempts[0].CacheDown? {
      assert (attempts + [a])[1..] == attempts[1..] + [a];
      FirstCountedPrefix(attempts[1..], a);
    }
  }

  /** The first delivery that is counted decides the store. */
  lemma {:induction false} LoginStore(plan: seq<Planned>, attempts: seq<Attempt>)
    requires Countable(plan, attempts)
    ensures var (count, store) := LoginRun(plan, attempts);
      && (count == 0 <==> FirstCounted(attempts).None?)
      && store == match FirstCounted(attempts)
                  case None => map[]
                  case Some(first) => StoreOf(AsksOf(Message(first.ctx, plan), first.applied))
    decreases |attempts|
  {
    if attempts != [] {
      var n := |attempts| - 1;
      LoginStore(plan, attempts[..n]);
      FirstCountedPrefix(attempts[..n], attempts[n]);
      assert attempts == attempts[..n] + [attempts[n]];
    }
  }

  lemma KeysOfOne(m: Message, n: nat, key: string)
    requires n <= |m.plan|
    ensures key in StoreOf(AsksOf(m, n)) <==> exists i :: 0 <= i < n && key == Idem(m.ctx, m.plan[i].tag)
  {
    var asks := AsksOf(m, n);
    AsksOfExactly(m, n);
    if key in StoreOf(asks) {
      var a := WasAsked(asks, key);
      assert a.i < n && key == Idem(m.ctx, m.plan[a.i].tag);
    }
    if i :| 0 <= i < n && key == Idem(m.ctx, m.plan[i].tag) {
      KeyStays(asks, Ask(m, i));
    }
  }

  /** Whatever other sign-ins from the same address do to the counter and however often each is redelivered, a
      sign-in has both its alerts in the end exactly when it is the one of the first counted delivery and that
      delivery made both calls: a failure after the bump is never made up for. */
  lemma LoginConvergesExactly(env: Env, uid: Id, username: string, ip: string, attempts: seq<Attempt>, ctx: MsgCtx)
    requires Countable(LoginPlan(env, uid, username, ip), attempts) && Identified(ctx)
    ensures var store := LoginRun(LoginPlan(env, uid, username, ip), attempts).1;
      Idem(ctx, SIGN_IN) in store && Idem(ctx, SIGN_IN_PUSH) in store
      <==> exists applied, c :: FirstCounted(attempts) == Some(Counted(c, applied)) && applied == 2 && SameEvent(c, ctx)
  {
    var plan := LoginPlan(env, uid, username, ip);
    LoginStore(plan, attempts);
    match FirstCounted(attempts)
    case None =>
    case Some(first) =>
      assert first == Counted(first.ctx, first.applied);
      LoginKeys(plan, first.ctx, first.applied, ctx);
  }

  lemma LoginKeys(plan: seq<Planned>, c: MsgCtx, applied: nat, ctx: MsgCtx)
    requires |plan| == 2 && plan[0].tag == SIGN_IN && plan[1].tag == SIGN_IN_PUSH && applied <= 2
    requires Identified(c) && Identified(ctx)
    ensures var store := StoreOf(AsksOf(Message(c, plan), applied));
      Idem(ctx, SIGN_IN) in store && Idem(ctx, SIGN_IN_PUSH) in store <==> applied == 2 && SameEvent(c, ctx)
  {
    var m := Message(c, plan);
    KeysOfOne(m, applied, Idem(ctx, SIGN_IN));
    KeysOfOne(m, applied, Idem(ctx, SIGN_IN_PUSH));
    SignInTags();
    KeyCollides(ctx, SIGN_IN_PUSH, c, SIGN_IN);
    KeyCollides(ctx, SIGN_IN_PUSH, c, SIGN_IN_PUSH);
    KeyCollides(ctx, SIGN_IN, c, SIGN_IN);
    if applied == 2 {
      assert m.plan[0].tag == SIGN_IN && m.plan[1].tag == SIGN_IN_PUSH;
    }
  }

  lemma SignInTags()
    ensures SIGN_IN != SIGN_IN_PUSH && !(KAFKA <= SIGN_IN) && !(KAFKA <= SIGN_IN_PUSH)
  {
    assert |SIGN_IN| != |SIGN_IN_PUSH|;
    assert KAFKA[0] != SIGN_IN[0] && KAFKA[0] != SIGN_IN_PUSH[0];
  }
}
