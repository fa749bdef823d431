/** Idempotency keys: `tag:event-id`, or `kafka:tag:partition:offset` for events without an id. */
module Keys {
  import opened Domain

  datatype MsgCtx = MsgCtx(partition: int, offset: int, eventId: Option<string>)

  function Digit(n: int): char
    requires 0 <= n < 10
  {
    (48 + n) as char
  }

  function Digits(n: nat): string {
    if n < 10 then [Digit(n)] else Digits(n / 10) + [Digit(n % 10)]
  }

  /** Rust's `Display` for integers. */
  function Decimal(n: int): string {
    if n < 0 then "-" + Digits(-n) else Digits(n)
  }

  const KAFKA := "kafka:"

  function Idem(ctx: MsgCtx, tag: string): string {
    match ctx.eventId
    case Some(id) => tag + ":" + id
    case None => KAFKA + tag + ":" + Decimal(ctx.partition) + ":" + Decimal(ctx.offset)
  }

  // ----- Numbers -----

  function Value(digits: string): int {
    if digits == "" then 0
    else 10 * Value(digits[..|digits| - 1]) + (digits[|digits| - 1] as int - 48)
  }

  lemma {:induction false} DigitsRoundTrip(n: nat)
    ensures Value(Digits(n)) == n
    ensures forall c :: c in Digits(n) ==> '0' <= c <= '9'
    ensures Digits(n) != ""
    decreases n
  {
    if n >= 10 {
      DigitsRoundTrip(n / 10);
      assert Digits(n)[..|Digits(n)| - 1] == Digits(n / 10);
    }
  }

  lemma DecimalInjective(m: int, n: int)
    requires Decimal(m) == Decimal(n)
    ensures m == n
  {
    var a, b := if m < 0 then -m else m, if n < 0 then -n else n;
    DigitsRoundTrip(a);
    DigitsRoundTrip(b);
    assert Digits(a)[0] in Digits(a) && Digits(b)[0] in Digits(b);
    assert Decimal(m)[0] == Decimal(n)[0];
    if m < 0 && n < 0 {
      assert Digits(a) == Decimal(m)[1..] == Decimal(n)[1..] == Digits(b);
    }
  }

  lemma DecimalPlain(n: int)
    ensures ':' !in Decimal(n)
  {
    DigitsRoundTrip(if n < 0 then -n else n);
  }

  // ----- Splitting -----

  /** The part after the last colon is determined. */
  lemma LastColon(a: string, b: string, c: string, d: string)
    requires ':' !in b && ':' !in d
    requires a + ":" + b == c + ":" + d
    ensures a == c && b == d
  {
    var s := a + ":" + b;
    assert s[|a|] == ':' && s[|c|] == ':';
    assert forall i :: |a| < i < |s| ==> s[i] == b[i - |a| - 1] != ':';
    assert forall i :: |c| < i < |s| ==> s[i] == d[i - |c| - 1] != ':';
    assert a == s[..|a|] && c == s[..|c|];
    assert b == s[|a| + 1..] && d == s[|c| + 1..];
  }

  // ----- The keys -----

  /** With colon-free event ids a key determines the tag and the event. */
  lemma EventKeyInjective(ctx1: MsgCtx, tag1: string, ctx2: MsgCtx, tag2: string)
    requires ctx1.eventId.Some? && ctx2.eventId.Some?
    requires ':' !in ctx1.eventId.value && ':' !in ctx2.eventId.value
    requires Idem(ctx1, tag1) == Idem(ctx2, tag2)
    ensures tag1 == tag2 && ctx1.eventId == ctx2.eventId
  {
    LastColon(tag1, ctx1.eventId.value, tag2, ctx2.eventId.value);
  }

  /** Without event ids it determines the tag and the coordinates. */
  lemma FallbackKeyInjective(ctx1: MsgCtx, tag1: string, ctx2: MsgCtx, tag2: string)
    requires ctx1.eventId.None? && ctx2.eventId.None?
    requires Idem(ctx1, tag1) == Idem(ctx2, tag2)
    ensures tag1 == tag2 && ctx1.partition == ctx2.partition && ctx1.offset == ctx2.offset
  {
    var p1, p2, o1, o2 := Decimal(ctx1.partition), Decimal(ctx2.partition), Decimal(ctx1.offset), Decimal(ctx2.offset);
    DecimalPlain(ctx1.partition);
    DecimalPlain(ctx2.partition);
    DecimalPlain(ctx1.offset);
    DecimalPlain(ctx2.offset);
    LastColon(KAFKA + tag1 + ":" + p1, o1, KAFKA + tag2 + ":" + p2, o2);
    LastColon(KAFKA + tag1, p1, KAFKA + tag2, p2);
    assert tag1 == (KAFKA + tag1)[6..] && tag2 == (KAFKA + tag2)[6..];
    DecimalInjective(ctx1.partition, ctx2.partition);
    DecimalInjective(ctx1.offset, ctx2.offset);
  }

  /** The two forms never meet, for tags that do not themselves start like the fallback form. */
  lemma FormsDisjoint(ctx1: MsgCtx, tag1: string, ctx2: MsgCtx, tag2: string)
    requires ctx1.eventId.Some? && ctx2.eventId.None?
    requires ':' !in ctx1.eventId.value && !(KAFKA <= tag1)
    ensures Idem(ctx1, tag1) != Idem(ctx2, tag2)
  {
    var id := ctx1.eventId.value;
    var tail := tag2 + ":" + Decimal(ctx2.partition) + ":" + Decimal(ctx2.offset);
    var s, t := tag1 + ":" + id, KAFKA + tail;
    assert Idem(ctx2, tag2) == t;
    if |tag1| >= 6 {
      assert s[..6] == tag1[..6] && t[..6] == KAFKA;
    } else if |tag1| == 5 {
      assert s[6..] == id && t[6..] == tail;
      assert tail[|tag2|] == ':';
    } else {
      assert s[|tag1|] == ':' && t[|tag1|] == KAFKA[|tag1|];
    }
  }

  predicate Identified(ctx: MsgCtx) {
    ctx.eventId.Some? ==> ':' !in ctx.eventId.value
  }

  /** Two messages are the same event: by the producer's id, else by their coordinates. */
  predicate SameEvent(ctx1: MsgCtx, ctx2: MsgCtx) {
    match (ctx1.eventId, ctx2.eventId)
    case (Some(a), Some(b)) => a == b
    case (None, None) => ctx1.partition == ctx2.partition && ctx1.offset == ctx2.offset
    case _ => false
  }

  /** Keys collide exactly for the same tag of the same event. */
  lemma KeyCollides(ctx1: MsgCtx, tag1: string, ctx2: MsgCtx, tag2: string)
    requires Identified(ctx1) && Identified(ctx2)
    requires !(KAFKA <= tag1) && !(KAFKA <= tag2)
    ensures Idem(ctx1, tag1) == Idem(ctx2, tag2) <==> tag1 == tag2 && SameEvent(ctx1, ctx2)
  {
    if Idem(ctx1, tag1) == Idem(ctx2, tag2) {
      match (ctx1.eventId, ctx2.eventId)
      case (Some(_), Some(_)) => EventKeyInjective(ctx1, tag1, ctx2, tag2);
      case (None, None) => FallbackKeyInjective(ctx1, tag1, ctx2, tag2);
      case (Some(_), None) => FormsDisjoint(ctx1, tag1, ctx2, tag2);
      case (None, Some(_)) => FormsDisjoint(ctx2, tag2, ctx1, tag1);
    }
  }
}
