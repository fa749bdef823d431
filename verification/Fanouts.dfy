/** Fan-outs side by side: listing, each send and each revocation are steps of their own, between those of
    other fan-outs, registrations and sign-outs. */
module Fanouts {
  import opened Domain
  import opened Repository
  import opened Devices
  import opened Fcm

  /** The devices a fan-out has still to send to, and the dead token it is about to revoke. */
  datatype Fan = Fan(left: seq<string>, dead: Option<string>)

  datatype Service = Service(table: Table, fans: map<nat, Fan>)

  const IDLE := Service([], map[])

  /** `Leave` is the end of a fan-out, by its last answer or a crash. */
  datatype Step =
    | Enrol(userId: Id, token: string, platform: Platform, now: int)
    | SignOut(token: string, now: int)
    | List(fan: nat, userId: Id)
    | SendTo(fan: nat, dead: bool)
    | Prune(fan: nat, now: int, applied: bool)
    | Leave(fan: nat)

  predicate Possible(s: Service, e: Step) {
    match e
    case Enrol(_, _, _, _) => true
    case SignOut(_, _) => true
    case List(f, _) => f !in s.fans
    case SendTo(f, _) => f in s.fans && s.fans[f].dead.None? && s.fans[f].left != []
    case Prune(f, _, _) => f in s.fans && s.fans[f].dead.Some?
    case Leave(f) => f in s.fans
  }

  function Stepped(s: Service, e: Step): Service
    requires Possible(s, e)
  {
    match e
    case Enrol(userId, token, platform, now) => s.(table := Registered(s.table, userId, token, platform, now))
    case SignOut(token, now) => s.(table := Revoked(s.table, token, now))
    case List(f, userId) => s.(fans := s.fans[f := Fan(ActiveFor(s.table, userId), None)])
    case SendTo(f, dead) =>
      var left := s.fans[f].left;
      s.(fans := s.fans[f := Fan(left[1..], if dead then Some(left[0]) else None)])
    case Prune(f, now, applied) =>
      Service(if applied then Revoked(s.table, s.fans[f].dead.value, now) else s.table,
              s.fans[f := s.fans[f].(dead := None)])
    case Leave(f) => s.(fans := s.fans - {f})
  }

  function Along(s: Service, es: seq<Step>): Option<Service> {
    if es == [] then Some(s)
    else
      match Along(s, es[..|es| - 1])
      case Some(s') => if Possible(s', es[|es| - 1]) then Some(Stepped(s', es[|es| - 1])) else None
      case None => None
  }

  /** The step hands a message for this device to the provider. */
  predicate Reaches(s: Service, e: Step, token: string)
    requires Possible(s, e)
  {
    e.SendTo? && s.fans[e.fan].left[0] == token
  }

  function Sends(s: Service, es: seq<Step>, token: string): nat
    requires Along(s, es).Some?
  {
    if es == [] then 0
    else
      var before := es[..|es| - 1];
      Sends(s, before, token) + if Reaches(Along(s, before).value, es[|es| - 1], token) then 1 else 0
  }

  /** The fan-outs that still have the token before them. */
  function Waiting(s: Service, token: string): set<nat> {
    set f | f in s.fans && token in s.fans[f].left
  }

  ghost predicate DistinctLeft(s: Service) {
    forall f :: f in s.fans ==> Distinct(s.fans[f].left)
  }

  ghost predicate Regular(s: Service) {
    UniqueTokens(s.table) && DistinctLeft(s)
  }

  lemma StepKeepsRegular(s: Service, e: Step)
    requires Regular(s) && Possible(s, e)
    ensures Regular(Stepped(s, e))
    ensures forall t :: Live(Stepped(s, e).table, t) ==> Live(s.table, t) || (e.Enrol? && e.token == t)
  {
    match e
    case Enrol(userId, token, platform, now) =>
      RegisterKeepsUnique(s.table, userId, token, platform, now);
      RegisterActivates(s.table, userId, token, platform, now);
    case SignOut(token, now) => RevokeKeepsUnique(s.table, token, now);
    case List(f, userId) => ActiveForExact(s.table, userId);
    case SendTo(f, _) =>
    case Prune(f, now, applied) =>
      if applied {
        RevokeKeepsUnique(s.table, s.fans[f].dead.value, now);
      }
    case Leave(f) =>
  }

  lemma {:induction false} RegularEver(es: seq<Step>)
    requires Along(IDLE, es).Some?
    ensures Regular(Along(IDLE, es).value)
  {
    if es != [] {
      RegularEver(es[..|es| - 1]);
      StepKeepsRegular(Along(IDLE, es[..|es| - 1]).value, es[|es| - 1]);
    }
  }

  /** Nobody new comes to have an inactive token before him, and who sends to it has it no longer. */
  lemma WaitingShrinks(s: Service, e: Step, token: string)
    requires Regular(s) && Possible(s, e) && !Live(s.table, token)
    ensures Waiting(Stepped(s, e), token) <= Waiting(s, token)
    ensures Reaches(s, e, token) ==> e.fan in Waiting(s, token) && e.fan !in Waiting(Stepped(s, e), token)
  {
    if e.List? {
      ActiveForExact(s.table, e.userId);
    }
  }

  lemma StepSpends(s: Service, e: Step, token: string)
    requires Regular(s) && Possible(s, e) && !Live(s.table, token)
    ensures |Waiting(Stepped(s, e), token)| + (if Reaches(s, e, token) then 1 else 0) <= |Waiting(s, token)|
  {
    WaitingShrinks(s, e, token);
    var after, before := Waiting(Stepped(s, e), token), Waiting(s, token);
    if Reaches(s, e, token) {
      Subset(after, before - {e.fan});
    } else {
      Subset(after, before);
    }
  }

  lemma Subset(a: set<nat>, b: set<nat>)
    requires a <= b
    ensures |a| <= |b|
  {
    assert b == a + (b - a);
  }

  ghost predicate NotEnrolled(es: seq<Step>, token: string) {
    forall e :: e in es && e.Enrol? ==> e.token != token
  }

  /** An inactive token is sent to by those fan-outs alone that had listed it while it was active, by each of
      them once at most, until it is registered again. */
  lemma {:induction false} InactiveFadesOut(s: Service, es: seq<Step>, token: string)
    requires Regular(s) && !Live(s.table, token)
    requires Along(s, es).Some? && NotEnrolled(es, token)
    ensures var s' := Along(s, es).value;
      && Regular(s') && !Live(s'.table, token)
      && Waiting(s', token) <= Waiting(s, token)
      && Sends(s, es, token) + |Waiting(s', token)| <= |Waiting(s, token)|
  {
    if es != [] {
      var before, e := es[..|es| - 1], es[|es| - 1];
      InactiveFadesOut(s, before, token);
      var mid := Along(s, before).value;
      StepKeepsRegular(mid, e);
      WaitingShrinks(mid, e, token);
      StepSpends(mid, e, token);
    }
  }

  /** In any run: once a token reported dead has been revoked, it is sent to at most once by each fan-out that
      already had it before it, and never when there is none. */
  lemma PrunedFadesOut(es: seq<Step>, prune: Step, later: seq<Step>)
    requires Along(IDLE, es).Some? && prune.Prune? && prune.applied && Possible(Along(IDLE, es).value, prune)
    requires var s := Along(IDLE, es).value;
      Along(Stepped(s, prune), later).Some? && NotEnrolled(later, s.fans[prune.fan].dead.value)
    ensures var s := Along(IDLE, es).value;
      var token := s.fans[prune.fan].dead.value;
      Sends(Stepped(s, prune), later, token) <= |Waiting(s, token)|
  {
    RegularEver(es);
    var s := Along(IDLE, es).value;
    var token := s.fans[prune.fan].dead.value;
    StepKeepsRegular(s, prune);
    RevokeKeepsUnique(s.table, token, prune.now);
    InactiveFadesOut(Stepped(s, prune), later, token);
    assert Waiting(Stepped(s, prune), token) == Waiting(s, token);
  }

  lemma Onward(s0: Service, es: seq<Step>, s: Service, e: Step) returns (es': seq<Step>)
    requires Along(s0, es) == Some(s) && Possible(s, e)
    ensures Along(s0, es') == Some(Stepped(s, e))
  {
    es' := es + [e];
    assert es'[..|es|] == es;
  }

  // ----- The bound is reached from everywhere -----

  /** These steps register nothing for the token, lead there, and send to it so often. */
  ghost predicate Sending(s0: Service, es: seq<Step>, s: Service, token: string, n: nat) {
    Along(s0, es) == Some(s) && NotEnrolled(es, token) && Sends(s0, es, token) == n
  }

  lemma SendOn(s0: Service, es: seq<Step>, s: Service, token: string, n: nat, e: Step) returns (es': seq<Step>)
    requires Sending(s0, es, s, token, n) && Possible(s, e) && !e.Enrol?
    ensures Sending(s0, es', Stepped(s, e), token, n + if Reaches(s, e, token) then 1 else 0)
  {
    es' := es + [e];
    assert es'[..|es|] == es;
  }

  /** What a fan-out does next: it revokes, without effect here, or sends. */
  function Onwards(s: Service, f: nat): Step
    requires f in s.fans
  {
    if s.fans[f].dead.Some? then Prune(f, 0, false) else SendTo(f, false)
  }

  lemma StepTowards(s: Service, f: nat, token: string)
    requires DistinctLeft(s) && f in Waiting(s, token)
    ensures var e := Onwards(s, f);
      && Possible(s, e) && DistinctLeft(Stepped(s, e)) && f in Stepped(s, e).fans
      && Waiting(Stepped(s, e), token) == if Reaches(s, e, token) then Waiting(s, token) - {f} else Waiting(s, token)
  {
    var left := s.fans[f].left;
    var e := Onwards(s, f);
    var s' := Stepped(s, e);
    if e.SendTo? {
      assert left == [left[0]] + left[1..];
      assert left[0] !in left[1..];
      assert forall g :: g in s.fans && g != f ==> s'.fans[g] == s.fans[g];
    }
  }

  /** This fan-out goes on until it has sent to the token. */
  lemma {:induction false} OneServed(s0: Service, es: seq<Step>, s: Service, token: string, n: nat, f: nat)
    returns (es': seq<Step>, s': Service)
    requires Sending(s0, es, s, token, n) && DistinctLeft(s) && f in Waiting(s, token)
    ensures Sending(s0, es', s', token, n + 1) && DistinctLeft(s') && Waiting(s', token) == Waiting(s, token) - {f}
    decreases |s.fans[f].left|, s.fans[f].dead.Some?
  {
    var e := Onwards(s, f);
    StepTowards(s, f, token);
    es' := SendOn(s0, es, s, token, n, e);
    s' := Stepped(s, e);
    if !Reaches(s, e, token) {
      es', s' := OneServed(s0, es', s', token, n, f);
    }
  }

  lemma {:induction false} AllServed(s0: Service, es: seq<Step>, s: Service, token: string, n: nat)
    returns (es': seq<Step>, s': Service)
    requires Sending(s0, es, s, token, n) && DistinctLeft(s)
    ensures Sending(s0, es', s', token, n + |Waiting(s, token)|)
    decreases |Waiting(s, token)|
  {
    es', s' := es, s;
    if f :| f in Waiting(s, token) {
      es', s' := OneServed(s0, es, s, token, n, f);
      es', s' := AllServed(s0, es', s', token, n + 1);
    }
  }

  /** Without a registration the token can be sent to this often. */
  ghost predicate CanSend(s: Service, token: string, n: nat) {
    exists es, s' :: Sending(s, es, s', token, n)
  }

  /** The token can be sent to `most` times and no oftener. */
  ghost predicate SendableUpTo(s: Service, token: string, most: nat) {
    CanSend(s, token, most) && forall n: nat :: CanSend(s, token, n) ==> n <= most
  }

  /** From any state an inactive token can be sent to exactly as often as there are fan-outs that still have it
      before them; so not at all exactly when there is none. */
  lemma StaleSendsExact(s: Service, token: string)
    requires Regular(s) && !Live(s.table, token)
    ensures SendableUpTo(s, token, |Waiting(s, token)|)
  {
    var es, s' := AllServed(s, [], s, token, 0);
    assert Sending(s, es, s', token, |Waiting(s, token)|);
    forall n: nat | CanSend(s, token, n)
      ensures n <= |Waiting(s, token)|
    {
      var es, s' :| Sending(s, es, s', token, n);
      InactiveFadesOut(s, es, token);
    }
  }

  /** In any run: once a token reported dead has been revoked, and until it is registered again, the sends to it
      that may still come are one for each fan-out that already had it before it. */
  lemma PrunedSendsExact(es: seq<Step>, s: Service, prune: Step, token: string)
    requires Along(IDLE, es) == Some(s) && prune.Prune? && prune.applied && Possible(s, prune)
    requires s.fans[prune.fan].dead == Some(token)
    ensures SendableUpTo(Stepped(s, prune), token, |Waiting(s, token)|)
  {
    RegularEver(es);
    StepKeepsRegular(s, prune);
    RevokeKeepsUnique(s.table, token, prune.now);
    assert Waiting(Stepped(s, prune), token) == Waiting(s, token);
    StaleSendsExact(Stepped(s, prune), token);
  }

  lemma SingleSend(s: Service, f: nat, token: string)
    requires Possible(s, SendTo(f, false)) && s.fans[f].left[0] == token
    ensures Along(s, [SendTo(f, false)]).Some? && Sends(s, [SendTo(f, false)], token) == 1
  {
    assert [SendTo(f, false)][..0] == [];
  }

  /** The user's only device is listed by two fan-outs. */
  function TwiceListed(userId: Id, token: string, platform: Platform, now: int): Service {
    Service([Device(userId, token, platform, now, None)], map[0 := Fan([token], None), 1 := Fan([token], None)])
  }

  lemma ListsTwice(userId: Id, token: string, platform: Platform, now: int) returns (es: seq<Step>)
    ensures Along(IDLE, es) == Some(TwiceListed(userId, token, platform, now))
  {
    var table, all := [Device(userId, token, platform, now, None)], Fan([token], None);
    assert ActiveFor(table[1..], userId) == [] && ActiveFor(table, userId) == [token];
    es := Onward(IDLE, [], IDLE, Enrol(userId, token, platform, now));
    assert [] + table == table;
    es := Onward(IDLE, es, Service(table, map[]), List(0, userId));
    assert map[][0 := all] == map[0 := all];
    es := Onward(IDLE, es, Service(table, map[0 := all]), List(1, userId));
    assert map[0 := all][1 := all] == map[0 := all, 1 := all];
  }

  /** Such fan-outs exist: of two of one user the second sends to the token that the first has pruned. */
  lemma PrunedStillSent(userId: Id, token: string, platform: Platform, now: int) returns (es: seq<Step>, s: Service)
    ensures Along(IDLE, es) == Some(s) && Possible(s, Prune(0, now, true)) && s.fans[0].dead == Some(token)
    ensures var after := Stepped(s, Prune(0, now, true));
      && !Live(after.table, token) && Along(after, [SendTo(1, false)]).Some?
      && |Waiting(s, token)| == 1 == Sends(after, [SendTo(1, false)], token)
  {
    es := ListsTwice(userId, token, platform, now);
    var before := TwiceListed(userId, token, platform, now);
    es := Onward(IDLE, es, before, SendTo(0, true));
    s := Stepped(before, SendTo(0, true));
    assert Waiting(s, token) == {1};
    RevokeKeepsUnique(s.table, token, now);
    SingleSend(Stepped(s, Prune(0, now, true)), 1, token);
  }

  /** A fan-out that nothing disturbs is the loop over its devices. */
  lemma {:induction false} FanOutIsARun(s: Service, f: nat, userId: Id, n: nat, answers: nat -> Answer, now: int)
    returns (es: seq<Step>)
    requires f !in s.fans && n <= |ActiveFor(s.table, userId)|
    ensures var tokens := ActiveFor(s.table, userId);
      var fans := s.fans[f := Fan(tokens[n..], None)];
      Along(s, es) == Some(Service(AfterPruning(s.table, tokens[..n], answers, now), fans))
    decreases n
  {
    var tokens := ActiveFor(s.table, userId);
    if n == 0 {
      es := Onward(s, [], s, List(f, userId));
      assert tokens[0..] == tokens;
    } else {
      es := FanOutIsARun(s, f, userId, n - 1, answers, now);
      assert tokens[n - 1..][1..] == tokens[n..] && tokens[..n][..n - 1] == tokens[..n - 1];
      var table := AfterPruning(s.table, tokens[..n - 1], answers, now);
      es := OneDevice(s, es, f, tokens[n - 1..], table, answers(n - 1), now);
    }
  }

  lemma OneDevice(s: Service, es: seq<Step>, f: nat, left: seq<string>, table: Table, answer: Answer, now: int)
    returns (es': seq<Step>)
    requires left != [] && Along(s, es) == Some(Service(table, s.fans[f := Fan(left, None)]))
    ensures var after := if answer.Dead? && answer.revoked then Revoked(table, left[0], now) else table;
      Along(s, es') == Some(Service(after, s.fans[f := Fan(left[1..], None)]))
  {
    var before, sent := Service(table, s.fans[f := Fan(left, None)]), Fan(left[1..], None);
    es' := Onward(s, es, before, SendTo(f, answer.Dead?));
    if answer.Dead? {
      var dead := Fan(left[1..], Some(left[0]));
      assert before.fans[f := dead] == s.fans[f := dead];
      es' := Onward(s, es', Service(table, s.fans[f := dead]), Prune(f, now, answer.revoked));
      assert s.fans[f := dead][f := sent] == s.fans[f := sent];
    } else {
      assert before.fans[f := sent] == s.fans[f := sent];
    }
  }
}
