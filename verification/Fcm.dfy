/** The push provider: one message fans out to the user's devices, and dead tokens are pruned on the way. */
module Fcm {
  import opened Domain
  import opened Repository
  import opened Devices
  import opened Strings
  import Keys
  import Protocol

  /** FCM's answer for one device, and whether the revocation of a dead token reached the table. */
  datatype Answer = Accepted | Dead(revoked: bool) | Retryable(reason: string)

  /** The devices that took the message, in order. */
  function AcceptedBy(tokens: seq<string>, answers: nat -> Answer): seq<string> {
    if tokens == [] then []
    else
      var n := |tokens| - 1;
      AcceptedBy(tokens[..n], answers) + if answers(n).Accepted? then [tokens[n]] else []
  }

  function PrunedBy(tokens: seq<string>, answers: nat -> Answer): seq<string> {
    if tokens == [] then []
    else
      var n := |tokens| - 1;
      PrunedBy(tokens[..n], answers) + if answers(n).Dead? then [tokens[n]] else []
  }

  function RetryableBy(tokens: seq<string>, answers: nat -> Answer): seq<string> {
    if tokens == [] then []
    else
      var n := |tokens| - 1;
      RetryableBy(tokens[..n], answers) + if answers(n).Retryable? then [tokens[n]] else []
  }

  /** The table after the loop: the dead tokens whose revocation went through are revoked. */
  function AfterPruning(table: Table, tokens: seq<string>, answers: nat -> Answer, now: int): Table {
    if tokens == [] then table
    else
      var n := |tokens| - 1;
      var before := AfterPruning(table, tokens[..n], answers, now);
      if answers(n).Dead? && answers(n).revoked then Revoked(before, tokens[n], now) else before
  }

  class FcmProvider {
    const deviceRepo: PgDeviceTokenRepository

    constructor (deviceRepo: PgDeviceTokenRepository)
      ensures this.deviceRepo == deviceRepo
    {
      this.deviceRepo := deviceRepo;
    }

    /** `userId` is the parsed recipient, `shown` its text; `listed` and `authorised` are the answers of the
        registry and of the token endpoint. An error means that no device took the message, and is the answer
        exactly when somebody may still be reached by a retry: nobody took it and some answer was transient, or
        the fan-out never began. */
    method Send(userId: Option<Id>, shown: string, listed: bool, authorised: bool, answers: nat -> Answer, now: int)
      returns (r: Result<string, string>, accepted: seq<string>)
      modifies deviceRepo
      ensures r.Err? ==> accepted == []
      ensures userId.None? || !listed ==> r.Err? && deviceRepo.rows == old(deviceRepo.rows)
      ensures userId.Some? && listed ==>
        var tokens := ActiveFor(old(deviceRepo.rows), userId.value);
        if tokens == [] then
          r == Ok("fcm-no-devices-" + shown) && accepted == [] && deviceRepo.rows == old(deviceRepo.rows)
        else if !authorised then r.Err? && deviceRepo.rows == old(deviceRepo.rows)
        else
          && accepted == AcceptedBy(tokens, answers)
          && deviceRepo.rows == AfterPruning(old(deviceRepo.rows), tokens, answers, now)
          && (r.Err? <==> (forall i :: 0 <= i < |tokens| ==> !answers(i).Accepted?)
                          && exists i :: 0 <= i < |tokens| && answers(i).Retryable?)
          && (r.Ok? ==> r.value == Report(|accepted|, |PrunedBy(tokens, answers)|))
    {
      accepted := [];
      if userId.None? {
        return Err("FCM recipient must be a user_id UUID"), [];
      }
      if !listed {
        return Err("database"), [];
      }
      var tokens := deviceRepo.ActiveForUser(userId.value);
      if tokens == [] {
        return Ok("fcm-no-devices-" + shown), [];
      }
      if !authorised {
        return Err("FCM token request failed"), [];
      }
      var delivered, pruned, lastRetryable;
      delivered, pruned, lastRetryable, accepted := FanOut(tokens, answers, now);
      NobodyAndSomebody(tokens, answers);
      if delivered > 0 || lastRetryable.None? {
        r := Ok(Report(delivered, pruned));
      } else {
        r := Err(lastRetryable.value);
      }
    }

    /** The loop over the devices. */
    method FanOut(tokens: seq<string>, answers: nat -> Answer, now: int)
      returns (delivered: nat, pruned: nat, lastRetryable: Option<string>, accepted: seq<string>)
      modifies deviceRepo
      ensures accepted == AcceptedBy(tokens, answers) && delivered == |accepted|
      ensures pruned == |PrunedBy(tokens, answers)|
      ensures lastRetryable.Some? <==> RetryableBy(tokens, answers) != []
      ensures deviceRepo.rows == AfterPruning(old(deviceRepo.rows), tokens, answers, now)
    {
      delivered, pruned, lastRetryable, accepted := 0, 0, None, [];
      for i := 0 to |tokens|
        invariant accepted == AcceptedBy(tokens[..i], answers) && delivered == |accepted|
        invariant pruned == |PrunedBy(tokens[..i], answers)|
        invariant lastRetryable.Some? <==> RetryableBy(tokens[..i], answers) != []
        invariant deviceRepo.rows == AfterPruning(old(deviceRepo.rows), tokens[..i], answers, now)
      {
        assert tokens[..i + 1][..i] == tokens[..i];
        match answers(i)
        case Accepted =>
          delivered := delivered + 1;
          accepted := accepted + [tokens[i]];
        case Dead(revoked) =>
          pruned := pruned + 1;
          if revoked {
            deviceRepo.Revoke(tokens[i], now);
          }
        case Retryable(reason) =>
          lastRetryable := Some(reason);
      }
      assert tokens[..|tokens|] == tokens;
    }
  }

  // ----- Who is in which class -----

  /** Exactly the devices that took the message count as accepted, */
  lemma {:induction false} AcceptedExact(tokens: seq<string>, answers: nat -> Answer, t: string)
    ensures t in AcceptedBy(tokens, answers)
            <==> exists i :: 0 <= i < |tokens| && tokens[i] == t && answers(i) == Accepted
    decreases |tokens|
  {
    if tokens != [] {
      var n := |tokens| - 1;
      AcceptedExact(tokens[..n], answers, t);
      assert forall i :: 0 <= i < n ==> tokens[..n][i] == tokens[i];
    }
  }

  /** exactly those reported dead as pruned, */
  lemma {:induction false} PrunedExact(tokens: seq<string>, answers: nat -> Answer, t: string)
    ensures t in PrunedBy(tokens, answers) <==> exists i :: 0 <= i < |tokens| && tokens[i] == t && answers(i).Dead?
    decreases |tokens|
  {
    if tokens != [] {
      var n := |tokens| - 1;
      PrunedExact(tokens[..n], answers, t);
      assert forall i :: 0 <= i < n ==> tokens[..n][i] == tokens[i];
    }
  }

  /** and exactly those with a transient answer as left for a retry. */
  lemma {:induction false} RetryableExact(tokens: seq<string>, answers: nat -> Answer, t: string)
    ensures t in RetryableBy(tokens, answers)
            <==> exists i :: 0 <= i < |tokens| && tokens[i] == t && answers(i).Retryable?
    decreases |tokens|
  {
    if tokens != [] {
      var n := |tokens| - 1;
      RetryableExact(tokens[..n], answers, t);
      assert forall i :: 0 <= i < n ==> tokens[..n][i] == tokens[i];
    }
  }

  lemma NobodyAndSomebody(tokens: seq<string>, answers: nat -> Answer)
    ensures AcceptedBy(tokens, answers) == [] <==> forall i :: 0 <= i < |tokens| ==> !answers(i).Accepted?
    ensures RetryableBy(tokens, answers) != [] <==> exists i :: 0 <= i < |tokens| && answers(i).Retryable?
  {
    var accepted, retryable := AcceptedBy(tokens, answers), RetryableBy(tokens, answers);
    forall i | 0 <= i < |tokens|
      ensures answers(i).Accepted? ==> tokens[i] in accepted
      ensures answers(i).Retryable? ==> tokens[i] in retryable
    {
      AcceptedExact(tokens, answers, tokens[i]);
      RetryableExact(tokens, answers, tokens[i]);
    }
    if accepted != [] {
      AcceptedExact(tokens, answers, accepted[0]);
      assert accepted[0] in accepted;
    }
    if retryable != [] {
      RetryableExact(tokens, answers, retryable[0]);
      assert retryable[0] in retryable;
    }
  }

  /** The provider reference of a fan-out. */
  function Report(delivered: nat, pruned: nat): string {
    "fcm-delivered-" + Keys.Decimal(delivered) + "-pruned-" + Keys.Decimal(pruned)
  }

  /** What stands behind the first two dashes. */
  function BehindTwo(s: string): Option<string> {
    match SplitOnce(s, '-')
    case None => None
    case Some((_, rest)) =>
      match SplitOnce(rest, '-')
      case None => None
      case Some((_, behind)) => Some(behind)
  }

  lemma TwoDashes(a: string, b: string, c: string)
    requires '-' !in a && '-' !in b
    ensures BehindTwo(a + ['-'] + (b + ['-'] + c)) == Some(c)
  {
    SplitAt(a, '-', b + ['-'] + c);
    SplitAt(b, '-', c);
  }

  /** The two numbers of a provider reference, that of the delivered first. */
  function ReadReport(s: string): Option<(int, int)> {
    match BehindTwo(s)
    case None => None
    case Some(numbers) =>
      match (SplitOnce(numbers, '-'), BehindTwo(numbers))
      case (Some((delivered, _)), Some(pruned)) => Some((Keys.Value(delivered), Keys.Value(pruned)))
      case _ => None
  }

  /** The reference says how many took the message and how many were dead. */
  lemma ReportReadsBack(delivered: nat, pruned: nat)
    ensures ReadReport(Report(delivered, pruned)) == Some((delivered, pruned))
  {
    var a, b := Keys.Digits(delivered), Keys.Digits(pruned);
    Keys.DigitsRoundTrip(delivered);
    Keys.DigitsRoundTrip(pruned);
    var numbers := a + ['-'] + ("pruned" + ['-'] + b);
    assert Report(delivered, pruned) == "fcm" + ['-'] + ("delivered" + ['-'] + numbers);
    TwoDashes("fcm", "delivered", numbers);
    TwoDashes(a, "pruned", b);
    SplitAt(a, '-', "pruned" + ['-'] + b);
  }

  // ----- Conservation -----

  /** Every device of the fan-out is delivered to, pruned or left for a retry: one of them, once. */
  lemma {:induction false} Partition(tokens: seq<string>, answers: nat -> Answer)
    ensures multiset(AcceptedBy(tokens, answers)) + multiset(PrunedBy(tokens, answers))
            + multiset(RetryableBy(tokens, answers)) == multiset(tokens)
    decreases |tokens|
  {
    if tokens != [] {
      var n := |tokens| - 1;
      Partition(tokens[..n], answers);
      assert tokens == tokens[..n] + [tokens[n]];
      match answers(n)
      case Accepted =>
      case Dead(_) =>
      case Retryable(_) =>
    }
  }

  lemma Conservation(tokens: seq<string>, answers: nat -> Answer)
    ensures |AcceptedBy(tokens, answers)| + |PrunedBy(tokens, answers)| + |RetryableBy(tokens, answers)| == |tokens|
  {
    Partition(tokens, answers);
    assert |multiset(tokens)| == |tokens|;
  }

  lemma {:induction false} AcceptedDistinct(tokens: seq<string>, answers: nat -> Answer)
    requires Distinct(tokens)
    ensures Distinct(AcceptedBy(tokens, answers))
    ensures forall t :: t in AcceptedBy(tokens, answers) ==> t in tokens
    decreases |tokens|
  {
    if tokens != [] {
      var n := |tokens| - 1;
      AcceptedDistinct(tokens[..n], answers);
      var before, all := AcceptedBy(tokens[..n], answers), AcceptedBy(tokens, answers);
      assert tokens[n] !in tokens[..n];
      assert forall i :: 0 <= i < |before| ==> all[i] == before[i] && before[i] in tokens[..n];
    }
  }

  /** One fan-out reaches each device at most once, and what it reports is what the delivery protocol asks of
      a provider: an error means nobody took the message. */
  lemma FanOutMeetsContract(table: Table, userId: Id, answers: nat -> Answer, r: Result<string, string>,
                            o: Protocol.Outcome)
    requires UniqueTokens(table)
    requires r.Err? <==> AcceptedBy(ActiveFor(table, userId), answers) == []
                         && RetryableBy(ActiveFor(table, userId), answers) != []
    requires o.sent == r && o.accepted == set t | t in AcceptedBy(ActiveFor(table, userId), answers)
    ensures Protocol.ProviderContract(o)
    ensures |o.accepted| == |AcceptedBy(ActiveFor(table, userId), answers)|
  {
    var tokens := ActiveFor(table, userId);
    ActiveForExact(table, userId);
    AcceptedDistinct(tokens, answers);
    DistinctSize(AcceptedBy(tokens, answers));
  }

  lemma {:induction false} DistinctSize(s: seq<string>)
    requires Distinct(s)
    ensures |set t | t in s| == |s|
    decreases |s|
  {
    if s != [] {
      var n := |s| - 1;
      DistinctSize(s[..n]);
      assert (set t | t in s) == (set t | t in s[..n]) + {s[n]};
    }
  }

  // ----- Runs of the registry -----

  datatype Op =
    | Register(userId: Id, token: string, platform: Platform, now: int)
    | Revoke(token: string, now: int)
    | Push(userId: Id, answers: nat -> Answer, now: int)

  function Next(table: Table, op: Op): Table {
    match op
    case Register(userId, token, platform, now) => Registered(table, userId, token, platform, now)
    case Revoke(token, now) => Revoked(table, token, now)
    case Push(userId, answers, now) => AfterPruning(table, ActiveFor(table, userId), answers, now)
  }

  function RunOps(table: Table, ops: seq<Op>): Table {
    if ops == [] then table else Next(RunOps(table, ops[..|ops| - 1]), ops[|ops| - 1])
  }

  /** The fan-out found the token dead and revoked it. */
  ghost predicate Killed(tokens: seq<string>, answers: nat -> Answer, token: string) {
    exists i :: 0 <= i < |tokens| && tokens[i] == token && answers(i) == Dead(true)
  }

  lemma KilledLast(tokens: seq<string>, answers: nat -> Answer, token: string)
    requires tokens != []
    ensures var n := |tokens| - 1;
      Killed(tokens, answers, token)
      <==> Killed(tokens[..n], answers, token) || (tokens[n] == token && answers(n) == Dead(true))
  {
    var n := |tokens| - 1;
    if i :| 0 <= i < |tokens| && tokens[i] == token && answers(i) == Dead(true) {
      assert i < n ==> tokens[..n][i] == token;
    }
    if i :| 0 <= i < n && tokens[..n][i] == token && answers(i) == Dead(true) {
      assert tokens[i] == token;
    }
  }

  lemma {:induction false} PruningExact(table: Table, tokens: seq<string>, answers: nat -> Answer, now: int)
    requires UniqueTokens(table)
    ensures UniqueTokens(AfterPruning(table, tokens, answers, now))
    ensures forall t :: (Live(AfterPruning(table, tokens, answers, now), t)
                         <==> Live(table, t) && !Killed(tokens, answers, t))
    decreases |tokens|
  {
    if tokens != [] {
      var n := |tokens| - 1;
      PruningExact(table, tokens[..n], answers, now);
      var before := AfterPruning(table, tokens[..n], answers, now);
      RevokeKeepsUnique(before, tokens[n], now);
      forall t
        ensures Live(AfterPruning(table, tokens, answers, now), t) <==> Live(table, t) && !Killed(tokens, answers, t)
      {
        KilledLast(tokens, answers, t);
      }
    }
  }

  /** Over every run of registrations, revocations and pushes, tokens stay unique, so each is active for one
      user at most. */
  lemma {:induction false} TokensStayUnique(ops: seq<Op>)
    ensures UniqueTokens(RunOps([], ops))
    ensures forall t, u, v :: t in ActiveFor(RunOps([], ops), u) && t in ActiveFor(RunOps([], ops), v) ==> u == v
    decreases |ops|
  {
    if ops != [] {
      var before, op := RunOps([], ops[..|ops| - 1]), ops[|ops| - 1];
      TokensStayUnique(ops[..|ops| - 1]);
      NextKeepsUnique(before, op);
    }
    forall t, u, v | t in ActiveFor(RunOps([], ops), u) && t in ActiveFor(RunOps([], ops), v)
      ensures u == v
    {
      OneUserPerToken(RunOps([], ops), t, u, v);
    }
  }

  lemma NextKeepsUnique(table: Table, op: Op)
    requires UniqueTokens(table)
    ensures UniqueTokens(Next(table, op))
    ensures forall t :: Live(Next(table, op), t) ==> Live(table, t) || (op.Register? && op.token == t)
  {
    match op
    case Register(userId, token, platform, now) =>
      RegisterKeepsUnique(table, userId, token, platform, now);
      RegisterActivates(table, userId, token, platform, now);
    case Revoke(token, now) => RevokeKeepsUnique(table, token, now);
    case Push(userId, answers, now) => PruningExact(table, ActiveFor(table, userId), answers, now);
  }

  lemma {:induction false} InactiveStays(table: Table, ops: seq<Op>, token: string)
    requires UniqueTokens(table) && !Live(table, token)
    requires forall op :: op in ops && op.Register? ==> op.token != token
    ensures UniqueTokens(RunOps(table, ops)) && !Live(RunOps(table, ops), token)
    decreases |ops|
  {
    if ops != [] {
      InactiveStays(table, ops[..|ops| - 1], token);
      NextKeepsUnique(RunOps(table, ops[..|ops| - 1]), ops[|ops| - 1]);
    }
  }

  /** A token reported dead, whose revocation went through, is in no later fan-out of any user until it is
      registered again. */
  lemma PrunedStaysSilent(table: Table, push: Op, i: nat, later: seq<Op>, userId: Id)
    requires UniqueTokens(table) && push.Push?
    requires i < |ActiveFor(table, push.userId)| && push.answers(i) == Dead(true)
    requires forall op :: op in later && op.Register? ==> op.token != ActiveFor(table, push.userId)[i]
    ensures ActiveFor(table, push.userId)[i] !in ActiveFor(RunOps(Next(table, push), later), userId)
  {
    var tokens := ActiveFor(table, push.userId);
    PruningExact(table, tokens, push.answers, push.now);
    assert Killed(tokens, push.answers, tokens[i]);
    InactiveStays(Next(table, push), later, tokens[i]);
    ActiveForExact(RunOps(Next(table, push), later), userId);
  }
}
