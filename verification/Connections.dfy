/** The registry of open WebSocket connections: a map of maps that stands for one flat table. */
module Connections {
  import opened Domain
  import Totals

  /** The sending half of a connection's message channel. */
  type Sender = nat

  /** `open` is false once the receiving half is gone; the inbox is what was sent and not yet written out. */
  datatype Mailbox = Mailbox(open: bool, inbox: seq<string>)

  type Nested = map<Id, map<Id, Sender>>

  type Flat = map<(Id, Id), Sender>

  predicate Connected(nested: Nested, u: Id, c: Id) {
    u in nested && c in nested[u]
  }

  predicate Bare(nested: Nested, u: Id) {
    u in nested && nested[u] == map[]
  }

  /** The two say the same, and a user without connections has no entry. */
  ghost predicate Stands(nested: Nested, flat: Flat) {
    && (forall k {:trigger k in flat} :: k in flat ==> Connected(nested, k.0, k.1))
    && (forall u, c {:trigger Connected(nested, u, c)} :: Connected(nested, u, c) ==>
          (u, c) in flat && flat[(u, c)] == nested[u][c])
    && (forall u {:trigger Bare(nested, u)} :: !Bare(nested, u))
  }

  /** The nested maps that stand for a flat table are determined by it. */
  lemma FlatDecides(m: Nested, n: Nested, flat: Flat)
    requires Stands(m, flat) && Stands(n, flat)
    ensures m == n
  {
    forall u | u in m
      ensures u in n && n[u] == m[u]
    {
      SameUser(m, n, flat, u);
    }
    forall u | u in n
      ensures u in m
    {
      SameUser(n, m, flat, u);
    }
  }

  lemma SameUser(m: Nested, n: Nested, flat: Flat, u: Id)
    requires Stands(m, flat) && Stands(n, flat) && u in m
    ensures u in n && n[u] == m[u]
  {
    assert !Bare(m, u);
    var c :| c in m[u];
    assert Connected(m, u, c) && (u, c) in flat;
    forall c
      ensures c in m[u] <==> c in n[u]
      ensures c in m[u] ==> m[u][c] == n[u][c]
    {
      assert Connected(m, u, c) <==> (u, c) in flat;
      assert Connected(n, u, c) <==> (u, c) in flat;
    }
  }

  function ConnsOf(nested: Nested, userId: Id): map<Id, Sender> {
    if userId in nested then nested[userId] else map[]
  }

  function Put(nested: Nested, u: Id, c: Id, tx: Sender): Nested {
    nested[u := ConnsOf(nested, u)[c := tx]]
  }

  function Drop(nested: Nested, u: Id, c: Id): Nested {
    if u !in nested then nested
    else
      var own := nested[u] - {c};
      if own == map[] then nested - {u} else nested[u := own]
  }

  lemma FlatPut(nested: Nested, flat: Flat, u: Id, c: Id, tx: Sender)
    requires Stands(nested, flat)
    ensures Stands(Put(nested, u, c, tx), flat[(u, c) := tx])
  {
    var nested', flat' := Put(nested, u, c, tx), flat[(u, c) := tx];
    assert c in nested'[u];
    forall v, d | Connected(nested', v, d)
      ensures (v, d) in flat' && flat'[(v, d)] == nested'[v][d]
    {
      assert (v, d) != (u, c) ==> Connected(nested, v, d);
    }
    forall v
      ensures !Bare(nested', v)
    {
      assert !Bare(nested, v);
    }
  }

  lemma FlatDrop(nested: Nested, flat: Flat, u: Id, c: Id)
    requires Stands(nested, flat)
    ensures Stands(Drop(nested, u, c), flat - {(u, c)})
  {
    var nested', flat' := Drop(nested, u, c), flat - {(u, c)};
    assert u in nested && nested[u] - {c} == map[] ==> forall d :: d in nested[u] ==> d == c || d in nested[u] - {c};
    forall k | k in flat'
      ensures Connected(nested', k.0, k.1)
    {
      assert Connected(nested, k.0, k.1);
      assert k.0 == u ==> k.1 in nested[u] - {c};
    }
    forall v, d | Connected(nested', v, d)
      ensures (v, d) in flat' && flat'[(v, d)] == nested'[v][d]
    {
      assert Connected(nested, v, d);
    }
    forall v
      ensures !Bare(nested', v)
    {
      assert !Bare(nested, v);
    }
  }

  ghost function Sizes(nested: Nested): map<Id, nat> {
    map u | u in nested :: |nested[u]|
  }

  ghost function Tagged(u: Id, conns: set<Id>): set<(Id, Id)> {
    set c | c in conns :: (u, c)
  }

  lemma {:induction false} TaggedSize(u: Id, conns: set<Id>)
    ensures |Tagged(u, conns)| == |conns|
    decreases |conns|
  {
    if conns == {} {
      assert Tagged(u, conns) == {};
    } else {
      var c :| c in conns;
      TaggedSize(u, conns - {c});
      assert Tagged(u, conns) == Tagged(u, conns - {c}) + {(u, c)};
    }
  }

  lemma WithoutUser(nested: Nested, flat: Flat, u: Id, own: set<(Id, Id)>)
    requires Stands(nested, flat) && u in nested && own == Tagged(u, nested[u].Keys)
    ensures Stands(nested - {u}, flat - own)
  {
    var nested', flat' := nested - {u}, flat - own;
    forall v, d | Connected(nested', v, d)
      ensures (v, d) in flat' && flat'[(v, d)] == nested'[v][d]
    {
      assert Connected(nested, v, d);
    }
    forall v
      ensures !Bare(nested', v)
    {
      assert !Bare(nested, v);
    }
    forall k | k in flat'
      ensures Connected(nested', k.0, k.1)
    {
      assert Connected(nested, k.0, k.1);
      assert k == (k.0, k.1);
    }
  }

  lemma OwnKeys(nested: Nested, flat: Flat, u: Id, own: set<(Id, Id)>)
    requires Stands(nested, flat) && u in nested && own == Tagged(u, nested[u].Keys)
    ensures own <= flat.Keys
  {
    forall k | k in own
      ensures k in flat
    {
      assert Connected(nested, u, k.1);
    }
  }

  lemma OthersSize(flat: Flat, own: set<(Id, Id)>)
    requires own <= flat.Keys
    ensures |flat| == |flat - own| + |own|
  {
    assert flat.Keys == (flat - own).Keys + own;
    assert |flat.Keys| == |flat| && |(flat - own).Keys| == |flat - own|;
  }

  lemma SizesWithout(nested: Nested, u: Id)
    requires u in nested
    ensures Totals.Total(Sizes(nested)) == |nested[u]| + Totals.Total(Sizes(nested - {u}))
  {
    assert Sizes(nested) - {u} == Sizes(nested - {u});
    Totals.TakeOut(Sizes(nested), u);
  }

  /** The sizes of the inner maps add up to the size of the flat table. */
  lemma {:induction false} SizesAddUp(nested: Nested, flat: Flat)
    requires Stands(nested, flat)
    ensures Totals.Total(Sizes(nested)) == |flat|
    decreases |nested|
  {
    if nested == map[] {
      assert flat == map[];
      assert Sizes(nested) == map[];
    } else {
      var u :| u in nested;
      var own := Tagged(u, nested[u].Keys);
      WithoutUser(nested, flat, u, own);
      OwnKeys(nested, flat, u, own);
      OthersSize(flat, own);
      TaggedSize(u, nested[u].Keys);
      assert |nested[u].Keys| == |nested[u]|;
      SizesWithout(nested, u);
      SizesAddUp(nested - {u}, flat - own);
    }
  }

  function Copies(message: string, n: nat): seq<string> {
    seq(n, _ => message)
  }

  /** Those of a user's connections that send to this mailbox: one at most, unless a sender was registered twice. */
  function Through(conns: map<Id, Sender>, among: set<Id>, tx: Sender): set<Id> {
    set c | c in among && c in conns && conns[c] == tx
  }

  predicate Reachable(mailboxes: map<Sender, Mailbox>, tx: Sender) {
    tx in mailboxes && mailboxes[tx].open
  }

  /** The mailboxes after the message went through these connections. */
  function Posted(mailboxes: map<Sender, Mailbox>, conns: map<Id, Sender>, among: set<Id>, message: string)
    : map<Sender, Mailbox>
  {
    map tx | tx in mailboxes ::
      if mailboxes[tx].open
      then mailboxes[tx].(inbox := mailboxes[tx].inbox + Copies(message, |Through(conns, among, tx)|))
      else mailboxes[tx]
  }

  lemma PostNone(mailboxes: map<Sender, Mailbox>, conns: map<Id, Sender>, message: string)
    ensures Posted(mailboxes, conns, {}, message) == mailboxes
  {
    assert Copies(message, 0) == [];
    forall tx | tx in mailboxes
      ensures Posted(mailboxes, conns, {}, message)[tx] == mailboxes[tx]
    {
      assert Through(conns, {}, tx) == {};
      assert mailboxes[tx].inbox + [] == mailboxes[tx].inbox;
    }
  }

  lemma PostOne(mailboxes: map<Sender, Mailbox>, conns: map<Id, Sender>, among: set<Id>, c: Id, message: string)
    requires c in conns && c !in among
    ensures var before, after, tx := Posted(mailboxes, conns, among, message),
                                     Posted(mailboxes, conns, among + {c}, message), conns[c];
      after == if Reachable(mailboxes, tx) then before[tx := before[tx].(inbox := before[tx].inbox + [message])]
               else before
  {
    var tx := conns[c];
    var through := Through(conns, among, tx);
    assert Through(conns, among + {c}, tx) == through + {c} && c !in through;
    assert Copies(message, |through| + 1) == Copies(message, |through|) + [message];
    if tx in mailboxes {
      assert mailboxes[tx].inbox + (Copies(message, |through|) + [message])
          == mailboxes[tx].inbox + Copies(message, |through|) + [message];
    }
    forall other | other != tx
      ensures Through(conns, among + {c}, other) == Through(conns, among, other)
    {
    }
  }

  /** Where no sender was registered twice, each open connection hears the message once and nobody else does. */
  lemma EachHearsOnce(mailboxes: map<Sender, Mailbox>, conns: map<Id, Sender>, message: string)
    requires forall c, d :: c in conns && d in conns && conns[c] == conns[d] ==> c == d
    ensures var after := Posted(mailboxes, conns, conns.Keys, message);
      && (forall c :: c in conns && Reachable(mailboxes, conns[c]) ==>
            after[conns[c]].inbox == mailboxes[conns[c]].inbox + [message])
      && (forall tx :: tx in mailboxes && (tx !in conns.Values || !mailboxes[tx].open) ==> after[tx] == mailboxes[tx])
  {
    var after := Posted(mailboxes, conns, conns.Keys, message);
    forall c | c in conns && Reachable(mailboxes, conns[c])
      ensures after[conns[c]].inbox == mailboxes[conns[c]].inbox + [message]
    {
      assert Through(conns, conns.Keys, conns[c]) == {c};
      assert Copies(message, 1) == [message];
    }
    forall tx | tx in mailboxes && (tx !in conns.Values || !mailboxes[tx].open)
      ensures after[tx] == mailboxes[tx]
    {
      if mailboxes[tx].open {
        assert Through(conns, conns.Keys, tx) == {};
        assert mailboxes[tx].inbox + Copies(message, 0) == mailboxes[tx].inbox;
      }
    }
  }

  /** A user's connections whose peer is gone. */
  ghost function DeadKeys(mailboxes: map<Sender, Mailbox>, userId: Id, conns: map<Id, Sender>, among: set<Id>)
    : set<(Id, Id)>
  {
    set c | c in among && c in conns && !Reachable(mailboxes, conns[c]) :: (userId, c)
  }

  ghost function LiveAmong(mailboxes: map<Sender, Mailbox>, conns: map<Id, Sender>, among: set<Id>): set<Id> {
    set c | c in among && c in conns && Reachable(mailboxes, conns[c])
  }

  lemma AmongOne(mailboxes: map<Sender, Mailbox>, userId: Id, conns: map<Id, Sender>, among: set<Id>, c: Id)
    requires c in conns && c !in among
    ensures LiveAmong(mailboxes, conns, among + {c})
         == LiveAmong(mailboxes, conns, among) + if Reachable(mailboxes, conns[c]) then {c} else {}
    ensures DeadKeys(mailboxes, userId, conns, among + {c})
         == DeadKeys(mailboxes, userId, conns, among) + if Reachable(mailboxes, conns[c]) then {} else {(userId, c)}
  {
  }

  lemma StillReachable(mailboxes: map<Sender, Mailbox>, conns: map<Id, Sender>, among: set<Id>, tx: Sender,
                       message: string)
    ensures Reachable(Posted(mailboxes, conns, among, message), tx) == Reachable(mailboxes, tx)
  {
  }

  /** What sending through `done` has made of the mailboxes and the table. */
  ghost predicate SentThrough(boxes: map<Sender, Mailbox>, flat: Flat, userId: Id, conns: map<Id, Sender>,
                              done: set<Id>, message: string, boxes': map<Sender, Mailbox>, flat': Flat,
                              delivered: bool)
  {
    && boxes' == Posted(boxes, conns, done, message)
    && flat' == flat - DeadKeys(boxes, userId, conns, done)
    && (delivered <==> LiveAmong(boxes, conns, done) != {})
  }

  function Appended(boxes: map<Sender, Mailbox>, tx: Sender, message: string): map<Sender, Mailbox>
    requires tx in boxes
  {
    boxes[tx := boxes[tx].(inbox := boxes[tx].inbox + [message])]
  }

  lemma SentOne(boxes: map<Sender, Mailbox>, flat: Flat, userId: Id, conns: map<Id, Sender>, done: set<Id>,
    message: string, boxes': map<Sender, Mailbox>, flat': Flat, delivered: bool, c: Id)
    requires SentThrough(boxes, flat, userId, conns, done, message, boxes', flat', delivered)
    requires c in conns && c !in done
    ensures var ok := Reachable(boxes', conns[c]);
      SentThrough(boxes, flat, userId, conns, done + {c}, message,
                  if ok then Appended(boxes', conns[c], message) else boxes',
                  if ok then flat' else flat' - {(userId, c)}, delivered || ok)
  {
    StillReachable(boxes, conns, done, conns[c], message);
    PostOne(boxes, conns, done, c, message);
    AmongOne(boxes, userId, conns, done, c);
  }

  predicate IsOpen(boxes: map<Sender, Mailbox>, tx: Sender) {
    tx in boxes && boxes[tx].open
  }

  /** Of the user's connections those to open mailboxes stay and hear the message, one copy for each; the others are
      gone; nobody else's change; and the answer is whether there was an open one. */
  ghost predicate SentToAll(boxes: map<Sender, Mailbox>, flat: Flat, userId: Id, message: string,
                            boxes': map<Sender, Mailbox>, flat': Flat, delivered: bool)
  {
    && (forall k :: k in flat' <==> k in flat && (k.0 != userId || IsOpen(boxes, flat[k])))
    && (forall k :: k in flat' ==> flat'[k] == flat[k])
    && boxes'.Keys == boxes.Keys
    && (forall tx :: tx in boxes ==> boxes'[tx].open == boxes[tx].open)
    && (forall tx :: tx in boxes ==>
          boxes'[tx].inbox
          == boxes[tx].inbox + Copies(message, if boxes[tx].open then |OwnTo(flat, userId, tx)| else 0))
    && (delivered <==> exists k :: k in flat && k.0 == userId && IsOpen(boxes, flat[k]))
  }

  /** The user's connections with this sender. */
  function OwnTo(flat: Flat, userId: Id, tx: Sender): set<Id> {
    set k | k in flat && k.0 == userId && flat[k] == tx :: k.1
  }

  lemma OwnConns(nested: Nested, flat: Flat, userId: Id)
    requires Stands(nested, flat)
    ensures forall c :: (userId, c) in flat <==> c in ConnsOf(nested, userId)
    ensures forall c :: c in ConnsOf(nested, userId) ==> flat[(userId, c)] == ConnsOf(nested, userId)[c]
  {
    forall c
      ensures (userId, c) in flat <==> c in ConnsOf(nested, userId)
      ensures c in ConnsOf(nested, userId) ==> flat[(userId, c)] == ConnsOf(nested, userId)[c]
    {
      assert Connected(nested, userId, c) <==> (userId, c) in flat;
    }
  }

  lemma AllSent(nested: Nested, boxes: map<Sender, Mailbox>, flat: Flat, userId: Id, message: string,
                boxes': map<Sender, Mailbox>, flat': Flat, delivered: bool)
    requires Stands(nested, flat)
    requires var conns := ConnsOf(nested, userId);
      SentThrough(boxes, flat, userId, conns, conns.Keys, message, boxes', flat', delivered)
    ensures SentToAll(boxes, flat, userId, message, boxes', flat', delivered)
  {
    var conns := ConnsOf(nested, userId);
    OwnConns(nested, flat, userId);
    forall k
      ensures k in flat' <==> k in flat && (k.0 != userId || IsOpen(boxes, flat[k]))
    {
      assert k == (k.0, k.1);
    }
    forall tx | tx in boxes
      ensures boxes'[tx].inbox
           == boxes[tx].inbox + Copies(message, if boxes[tx].open then |OwnTo(flat, userId, tx)| else 0)
    {
      assert Through(conns, conns.Keys, tx) == OwnTo(flat, userId, tx);
      assert boxes[tx].inbox + Copies(message, 0) == boxes[tx].inbox;
    }
    var live := LiveAmong(boxes, conns, conns.Keys);
    if delivered {
      var c :| c in live;
      assert (userId, c) in flat;
    }
    if k :| k in flat && k.0 == userId && IsOpen(boxes, flat[k]) {
      assert k == (userId, k.1) && k.1 in live;
    }
  }

  lemma OneLess(all: set<Id>, rest: set<Id>, c: Id)
    requires rest <= all && c in rest
    ensures all - (rest - {c}) == all - rest + {c} && rest - {c} <= all && |rest - {c}| < |rest|
  {
  }

  class ConnectionManager {
    var connections: Nested
    var mailboxes: map<Sender, Mailbox>
    var gauge: nat
    ghost var flat: Flat

    ghost predicate Valid()
      reads this
    {
      && Stands(connections, flat)
      && gauge == |flat|
    }

    constructor ()
      ensures Valid() && flat == map[] && mailboxes == map[]
    {
      connections, mailboxes, gauge, flat := map[], map[], 0, map[];
    }

    method AddConnection(userId: Id, connectionId: Id, tx: Sender)
      requires Valid()
      modifies this`connections, this`gauge, this`flat
      ensures Valid() && flat == old(flat)[(userId, connectionId) := tx]
    {
      FlatPut(connections, flat, userId, connectionId, tx);
      connections := Put(connections, userId, connectionId, tx);
      flat := flat[(userId, connectionId) := tx];
      SizesAddUp(connections, flat);
      gauge := TotalConnections();
    }

    method RemoveConnection(userId: Id, connectionId: Id)
      requires Valid()
      modifies this`connections, this`gauge, this`flat
      ensures Valid() && flat == old(flat) - {(userId, connectionId)}
    {
      FlatDrop(connections, flat, userId, connectionId);
      connections := Drop(connections, userId, connectionId);
      flat := flat - {(userId, connectionId)};
      SizesAddUp(connections, flat);
      gauge := TotalConnections();
    }

    method TotalConnections() returns (n: nat)
      ensures n == Totals.Total(Sizes(connections))
    {
      n := 0;
      var rest := connections.Keys;
      ghost var left := Sizes(connections);
      while rest != {}
        invariant left.Keys == rest && forall u :: u in rest ==> u in connections && left[u] == |connections[u]|
        invariant n + Totals.Total(left) == Totals.Total(Sizes(connections))
        decreases |rest|
      {
        var u :| u in rest;
        Totals.TakeOut(left, u);
        n := n + |connections[u]|;
        rest, left := rest - {u}, left - {u};
      }
    }

    /** A copy into the open mailbox, or else the connection goes. */
    method SendOver(userId: Id, connectionId: Id, tx: Sender, message: string) returns (ok: bool)
      requires Valid()
      modifies this
      ensures Valid() && ok == Reachable(old(mailboxes), tx)
      ensures ok ==> flat == old(flat)
      ensures ok ==> mailboxes == Appended(old(mailboxes), tx, message)
      ensures !ok ==> flat == old(flat) - {(userId, connectionId)} && mailboxes == old(mailboxes)
    {
      ok := tx in mailboxes && mailboxes[tx].open;
      if ok {
        mailboxes := Appended(mailboxes, tx, message);
      } else {
        RemoveConnection(userId, connectionId);
      }
    }

    /** One copy to each open connection of the user; the closed ones are dropped, and nothing else changes. */
    method SendToUser(userId: Id, message: string) returns (delivered: bool)
      requires Valid()
      modifies this
      ensures Valid()
      ensures var conns := ConnsOf(old(connections), userId);
        SentThrough(old(mailboxes), old(flat), userId, conns, conns.Keys, message, mailboxes, flat, delivered)
      ensures SentToAll(old(mailboxes), old(flat), userId, message, mailboxes, flat, delivered)
    {
      delivered := false;
      var senders := ConnsOf(connections, userId);
      var rest := senders.Keys;
      ghost var boxes, table := mailboxes, flat;
      PostNone(boxes, senders, message);
      while rest != {}
        invariant Valid() && rest <= senders.Keys
        invariant SentThrough(boxes, table, userId, senders, senders.Keys - rest, message, mailboxes, flat, delivered)
        decreases |rest|
      {
        var c :| c in rest;
        SentOne(boxes, table, userId, senders, senders.Keys - rest, message, mailboxes, flat, delivered, c);
        OneLess(senders.Keys, rest, c);
        var ok := SendOver(userId, c, senders[c], message);
        delivered := delivered || ok;
        rest := rest - {c};
      }
      assert senders.Keys - {} == senders.Keys;
      AllSent(old(connections), boxes, table, userId, message, mailboxes, flat, delivered);
    }
  }
}
