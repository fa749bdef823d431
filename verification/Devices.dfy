/** The push device registry: one row per token, re-pointed on registration and revoked softly. */
module Devices {
  import opened Domain
  import opened Repository

  datatype Platform = Android | Ios | Web

  datatype Device = Device(userId: Id, token: string, platform: Platform, lastSeenAt: int, revokedAt: Option<int>)

  type Table = seq<Device>

  /** `token TEXT NOT NULL UNIQUE`. */
  ghost predicate UniqueTokens(table: Table) {
    forall i, j :: 0 <= i < j < |table| ==> table[i].token != table[j].token
  }

  /** The row that holds the token, or the table's length. */
  function IndexOf(table: Table, token: string): (i: nat)
    ensures i <= |table|
    ensures i < |table| ==> table[i].token == token
    ensures forall j :: 0 <= j < i ==> table[j].token != token
  {
    if table == [] || table[0].token == token then 0 else 1 + IndexOf(table[1..], token)
  }

  function Registered(table: Table, userId: Id, token: string, platform: Platform, now: int): Table {
    var i := IndexOf(table, token);
    if i < |table|
    then table[i := table[i].(userId := userId, platform := platform, lastSeenAt := now, revokedAt := None)]
    else table + [Device(userId, token, platform, now, None)]
  }

  function Revoked(table: Table, token: string, now: int): Table {
    var i := IndexOf(table, token);
    if i < |table| && table[i].revokedAt.None? then table[i := table[i].(revokedAt := Some(now))] else table
  }

  predicate IsActiveFor(d: Device, userId: Id) {
    d.userId == userId && d.revokedAt.None?
  }

  function ActiveFor(table: Table, userId: Id): seq<string> {
    if table == [] then []
    else (if IsActiveFor(table[0], userId) then [table[0].token] else []) + ActiveFor(table[1..], userId)
  }

  ghost predicate Live(table: Table, token: string) {
    exists d :: d in table && d.token == token && d.revokedAt.None?
  }

  class PgDeviceTokenRepository {
    var rows: Table

    constructor ()
      ensures rows == []
    {
      rows := [];
    }

    method Register(userId: Id, token: string, platform: Platform, now: int)
      modifies this
      ensures rows == Registered(old(rows), userId, token, platform, now)
    {
      var i := Locate(token);
      if i < |rows| {
        rows := rows[i := rows[i].(userId := userId, platform := platform, lastSeenAt := now, revokedAt := None)];
      } else {
        rows := rows + [Device(userId, token, platform, now, None)];
      }
    }

    method Revoke(token: string, now: int)
      modifies this
      ensures rows == Revoked(old(rows), token, now)
    {
      var i := Locate(token);
      if i < |rows| && rows[i].revokedAt.None? {
        rows := rows[i := rows[i].(revokedAt := Some(now))];
      }
    }

    method ActiveForUser(userId: Id) returns (tokens: seq<string>)
      ensures tokens == ActiveFor(rows, userId)
    {
      tokens := [];
      for i := |rows| downto 0
        invariant tokens == ActiveFor(rows[i..], userId)
      {
        if IsActiveFor(rows[i], userId) {
          tokens := [rows[i].token] + tokens;
        }
      }
      assert rows[0..] == rows;
    }

    method Locate(token: string) returns (i: nat)
      ensures i == IndexOf(rows, token)
    {
      i := 0;
      while i < |rows| && rows[i].token != token
        invariant i <= |rows|
        invariant i + IndexOf(rows[i..], token) == IndexOf(rows, token)
      {
        i := i + 1;
      }
    }
  }

  // ----- Tokens -----

  /** Exactly the user's unrevoked tokens are listed, each once. */
  lemma {:induction false} ActiveForExact(table: Table, userId: Id)
    ensures forall t :: t in ActiveFor(table, userId)
                 <==> exists d :: d in table && d.token == t && d.userId == userId && d.revokedAt == None
    ensures UniqueTokens(table) ==> Distinct(ActiveFor(table, userId))
    decreases |table|
  {
    if table != [] {
      ActiveForExact(table[1..], userId);
      var rest := ActiveFor(table[1..], userId);
      forall t
        ensures t in ActiveFor(table, userId)
                <==> exists d :: d in table && d.token == t && d.userId == userId && d.revokedAt == None
      {
        if t in rest {
          var d :| d in table[1..] && d.token == t && IsActiveFor(d, userId);
          assert d in table;
        }
        if d :| d in table && d.token == t && IsActiveFor(d, userId) {
          assert d == table[0] || d in table[1..];
        }
      }
      if UniqueTokens(table) {
        forall i, j | 0 <= i < j < |table| - 1
          ensures table[1..][i].token != table[1..][j].token
        {
          assert table[i + 1].token != table[j + 1].token;
        }
        assert table[0].token !in rest;
      }
    }
  }

  /** The token's row after a registration: its user, its platform, seen now and active. */
  lemma RegisteredExact(table: Table, userId: Id, token: string, platform: Platform, now: int)
    requires UniqueTokens(table)
    ensures forall d :: d in Registered(table, userId, token, platform, now)
                   <==> d == Device(userId, token, platform, now, None) || (d in table && d.token != token)
  {
    var after, i := Registered(table, userId, token, platform, now), IndexOf(table, token);
    assert after[i] == Device(userId, token, platform, now, None);
    forall d
      ensures d in after <==> d == Device(userId, token, platform, now, None) || (d in table && d.token != token)
    {
      if d in after {
        var j :| 0 <= j < |after| && after[j] == d;
        assert j != i ==> table[j] in table && (i < |table| ==> table[j].token != table[i].token);
      }
      if d in table && d.token != token {
        var j :| 0 <= j < |table| && table[j] == d;
        assert after[j] in after;
      }
    }
  }

  /** A revocation sets the time of the token's row once: a revoked row keeps the time of its first revocation. */
  lemma RevokedExact(table: Table, token: string, now: int)
    requires UniqueTokens(table)
    ensures var after := Revoked(table, token, now);
      && |after| == |table|
      && forall j :: 0 <= j < |table| ==>
           after[j] == if table[j].token == token && table[j].revokedAt == None
                       then table[j].(revokedAt := Some(now)) else table[j]
  {
    var i := IndexOf(table, token);
    forall j | 0 <= j < |table|
      ensures table[j].token == token <==> j == i
    {
    }
  }

  /** A token is active for one user at most. */
  lemma OneUserPerToken(table: Table, token: string, u: Id, v: Id)
    requires UniqueTokens(table) && token in ActiveFor(table, u) && token in ActiveFor(table, v)
    ensures u == v
  {
    ActiveForExact(table, u);
    ActiveForExact(table, v);
    var d :| d in table && d.token == token && IsActiveFor(d, u);
    var e :| e in table && e.token == token && IsActiveFor(e, v);
    var i :| 0 <= i < |table| && table[i] == d;
    var j :| 0 <= j < |table| && table[j] == e;
    assert i == j;
  }

  lemma RegisterKeepsUnique(table: Table, userId: Id, token: string, platform: Platform, now: int)
    requires UniqueTokens(table)
    ensures UniqueTokens(Registered(table, userId, token, platform, now))
    ensures token in ActiveFor(Registered(table, userId, token, platform, now), userId)
  {
    var after := Registered(table, userId, token, platform, now);
    ActiveForExact(after, userId);
    assert after[IndexOf(table, token)] in after;
  }

  lemma RevokeKeepsUnique(table: Table, token: string, now: int)
    requires UniqueTokens(table)
    ensures UniqueTokens(Revoked(table, token, now))
    ensures forall t :: Live(Revoked(table, token, now), t) <==> t != token && Live(table, t)
  {
    var after, i := Revoked(table, token, now), IndexOf(table, token);
    assert |after| == |table| && forall j :: 0 <= j < |table| && j != i ==> after[j] == table[j];
    forall t
      ensures Live(after, t) <==> t != token && Live(table, t)
    {
      if Live(after, t) {
        var d :| d in after && d.token == t && d.revokedAt.None?;
        var j :| 0 <= j < |after| && after[j] == d;
        assert j != i && table[j] in table;
        assert i < |table| ==> table[i].token != table[j].token;
      }
      if t != token && Live(table, t) {
        var d :| d in table && d.token == t && d.revokedAt.None?;
        var j :| 0 <= j < |table| && table[j] == d;
        assert after[j] in after;
      }
    }
  }

  lemma RegisterActivates(table: Table, userId: Id, token: string, platform: Platform, now: int)
    ensures forall t :: Live(Registered(table, userId, token, platform, now), t) <==> t == token || Live(table, t)
  {
    var after, i := Registered(table, userId, token, platform, now), IndexOf(table, token);
    assert after[i] in after;
    forall t
      ensures Live(after, t) <==> t == token || Live(table, t)
    {
      if Live(after, t) {
        var d :| d in after && d.token == t && d.revokedAt.None?;
        var j :| 0 <= j < |after| && after[j] == d;
        if j != i {
          assert table[j] in table;
        }
      }
      if t != token && Live(table, t) {
        var d :| d in table && d.token == t && d.revokedAt.None?;
        var j :| 0 <= j < |table| && table[j] == d;
        assert after[j] in after;
      }
    }
  }
}
