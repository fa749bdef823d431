/** The links in account e-mails: percent-encoding, and what the page behind the link reads back. */
module CallbackUrl {
  import opened Domain
  import opened Strings

  type Byte = b: int | 0 <= b < 256

  predicate Unreserved(b: Byte) {
    65 <= b <= 90 || 97 <= b <= 122 || 48 <= b <= 57 || b in {45, 46, 95, 126}
  }

  function HexDigit(n: int): char
    requires 0 <= n < 16
  {
    if n < 10 then (48 + n) as char else (55 + n) as char
  }

  function EncodedByte(b: Byte): string {
    if Unreserved(b) then [b as char] else ['%', HexDigit(b / 16), HexDigit(b % 16)]
  }

  function Encoded(bytes: seq<Byte>): string {
    if bytes == [] then "" else EncodedByte(bytes[0]) + Encoded(bytes[1..])
  }

  lemma {:induction false} EncodedAppend(bytes: seq<Byte>, b: Byte)
    ensures Encoded(bytes + [b]) == Encoded(bytes) + EncodedByte(b)
    decreases |bytes|
  {
    if bytes == [] {
      assert bytes + [b] == [b];
    } else {
      assert (bytes + [b])[1..] == bytes[1..] + [b];
      EncodedAppend(bytes[1..], b);
    }
  }

  method UrlEncode(bytes: seq<Byte>) returns (out: string)
    ensures out == Encoded(bytes)
  {
    out := "";
    for i := 0 to |bytes|
      invariant out == Encoded(bytes[..i])
    {
      var b := bytes[i];
      EncodedAppend(bytes[..i], b);
      assert bytes[..i + 1] == bytes[..i] + [b];
      if Unreserved(b) {
        out := out + [b as char];
      } else {
        out := out + ['%', HexDigit(b / 16), HexDigit(b % 16)];
      }
    }
    assert bytes[..|bytes|] == bytes;
  }

  // ----- Reading a link -----

  predicate IsHex(c: char) {
    '0' <= c <= '9' || 'A' <= c <= 'F' || 'a' <= c <= 'f'
  }

  function HexValue(c: char): int
    requires IsHex(c)
    ensures 0 <= HexValue(c) < 16
  {
    if c <= '9' then c as int - 48 else if c <= 'F' then c as int - 55 else c as int - 87
  }

  /** `%` and two hex digits (section 2.1 of RFC 3986). */
  predicate EscapeAt(s: string, i: nat) {
    i + 2 < |s| && s[i] == '%' && IsHex(s[i + 1]) && IsHex(s[i + 2])
  }

  function Decoded(s: string): seq<Byte> {
    if s == "" then []
    else if EscapeAt(s, 0) then [16 * HexValue(s[1]) + HexValue(s[2])] + Decoded(s[3..])
    else [s[0] as int % 256] + Decoded(s[1..])
  }

  // ----- The encoding -----

  lemma HexRoundTrip(n: int)
    requires 0 <= n < 16
    ensures IsHex(HexDigit(n)) && HexValue(HexDigit(n)) == n
  {
  }

  lemma DecodesByte(b: Byte, tail: string)
    ensures Decoded(EncodedByte(b) + tail) == [b] + Decoded(tail)
  {
    var s := EncodedByte(b) + tail;
    if Unreserved(b) {
      assert s[1..] == tail;
    } else {
      HexRoundTrip(b / 16);
      HexRoundTrip(b % 16);
      assert s[3..] == tail;
    }
  }

  lemma {:induction false} EncodingRoundTrip(bytes: seq<Byte>)
    ensures Decoded(Encoded(bytes)) == bytes
    decreases |bytes|
  {
    if bytes != [] {
      EncodingRoundTrip(bytes[1..]);
      DecodesByte(bytes[0], Encoded(bytes[1..]));
    }
  }

  lemma EncodingInjective(a: seq<Byte>, b: seq<Byte>)
    requires Encoded(a) == Encoded(b)
    ensures a == b
  {
    EncodingRoundTrip(a);
    EncodingRoundTrip(b);
  }

  predicate QueryChar(c: char) {
    c == '%' || ((c as int) < 256 && Unreserved(c as int))
  }

  /** Only unreserved characters and complete `%HH` triples with upper-case digits. */
  predicate WellEncoded(s: string) {
    if s == "" then true
    else if s[0] == '%' then
      |s| >= 3 && IsHex(s[1]) && s[1] < 'a' && IsHex(s[2]) && s[2] < 'a' && WellEncoded(s[3..])
    else (s[0] as int) < 256 && Unreserved(s[0] as int) && WellEncoded(s[1..])
  }

  /** Letters, digits and four marks stand for themselves, and every other byte is escaped (section 2.3 of
      RFC 3986). */
  lemma StandsForItself(b: Byte)
    ensures EncodedByte(b) == [b as char]
       <==> var c := b as char;
            'A' <= c <= 'Z' || 'a' <= c <= 'z' || '0' <= c <= '9' || c == '-' || c == '.' || c == '_' || c == '~'
  {
  }

  lemma {:induction false} EncodedAlphabet(bytes: seq<Byte>)
    ensures WellEncoded(Encoded(bytes))
    ensures forall c :: c in Encoded(bytes) ==> QueryChar(c)
    decreases |bytes|
  {
    if bytes != [] {
      EncodedAlphabet(bytes[1..]);
      var s, rest := Encoded(bytes), Encoded(bytes[1..]);
      if Unreserved(bytes[0]) {
        assert s[1..] == rest;
      } else {
        HexRoundTrip(bytes[0] / 16);
        HexRoundTrip(bytes[0] % 16);
        assert s[3..] == rest;
      }
    }
  }

  // ----- Links -----

  /** The base is this and then slashes only; this does not end with one. */
  predicate Slashed(base: string, bare: string) {
    && bare <= base && (bare == "" || bare[|bare| - 1] != '/')
    && forall i :: |bare| <= i < |base| ==> base[i] == '/'
  }

  function TrimEndSlashes(s: string): (r: string)
    ensures Slashed(s, r)
    ensures forall c :: c in s && c != '/' ==> c in r
  {
    if s != "" && s[|s| - 1] == '/' then
      assert s == s[..|s| - 1] + ['/'];
      TrimEndSlashes(s[..|s| - 1])
    else s
  }

  /** The page a link is meant for. */
  function Page(base: string, path: string): string {
    TrimEndSlashes(base) + if "/" <= path then path else "/" + path
  }

  lemma TrimmedToBare(base: string, bare: string)
    requires Slashed(base, bare)
    ensures TrimEndSlashes(base) == bare
  {
    var trimmed := TrimEndSlashes(base);
    assert bare != "" ==> base[|bare| - 1] != '/';
    assert trimmed != "" ==> base[|trimmed| - 1] != '/';
    assert |trimmed| == |bare|;
    assert trimmed == base[..|trimmed|] && bare == base[..|bare|];
  }

  /** One slash stands between base and path, however many the base ends with and whether or not the path has its
      own. */
  lemma PageExact(base: string, bare: string, path: string, p: string)
    requires Slashed(base, bare) && (path == "/" + p || (path == p && !("/" <= p)))
    ensures Page(base, path) == bare + "/" + p
  {
    TrimmedToBare(base, bare);
    assert bare + ("/" + p) == bare + "/" + p;
  }

  function BuildCallbackUrl(frontend: Option<string>, path: string, query: string): string {
    match frontend
    case None => ""
    case Some(base) =>
      if query == "" then Page(base, path) else Page(base, path) + "?" + query
  }

  function OneParam(name: string, value: seq<Byte>): string {
    name + "=" + Encoded(value)
  }

  /** The query of the verification and wallet confirmation links. */
  function TwoParams(name1: string, value1: seq<Byte>, name2: string, value2: seq<Byte>): string {
    OneParam(name1, value1) + "&" + OneParam(name2, value2)
  }

  function VerifyLink(frontend: Option<string>, token: seq<Byte>, email: seq<Byte>): string {
    BuildCallbackUrl(frontend, "verify", TwoParams("token", token, "email", email))
  }

  function WalletLink(frontend: Option<string>, token: seq<Byte>, wallet: seq<Byte>): string {
    BuildCallbackUrl(frontend, "wallet/confirm", TwoParams("token", token, "wallet", wallet))
  }

  datatype Param = Param(name: string, value: seq<Byte>)

  function ReadParam(s: string): Option<Param> {
    match SplitOnce(s, '=')
    case None => None
    case Some((name, value)) => Some(Param(name, Decoded(value)))
  }

  /** A number sign ends the query (section 3.5 of RFC 3986). */
  function BeforeFragment(url: string): string {
    match SplitOnce(url, '#')
    case None => url
    case Some((before, _)) => before
  }

  /** The page and the two parameters a reader of the link finds. */
  function ReadLink(url: string): Option<(string, Option<Param>, Option<Param>)> {
    ReadQuery(BeforeFragment(url))
  }

  function ReadQuery(url: string): Option<(string, Option<Param>, Option<Param>)> {
    match SplitOnce(url, '?')
    case None => None
    case Some((page, query)) =>
      match SplitOnce(query, '&')
      case None => Some((page, ReadParam(query), None))
      case Some((first, second)) => Some((page, ReadParam(first), ReadParam(second)))
  }

  predicate PlainName(name: string) {
    '&' !in name && '=' !in name && '#' !in name
  }

  lemma ReadsParam(name: string, value: seq<Byte>)
    requires PlainName(name)
    ensures ReadParam(OneParam(name, value)) == Some(Param(name, value))
    ensures '&' !in OneParam(name, value) && '#' !in OneParam(name, value)
  {
    SplitAt(name, '=', Encoded(value));
    EncodingRoundTrip(value);
    EncodedAlphabet(value);
    var s := OneParam(name, value);
    assert forall c :: c in s ==> c in name || c == '=' || c in Encoded(value);
    assert !QueryChar('&') && !QueryChar('#');
  }

  /** The base names an origin and a path only. */
  predicate PlainBase(base: string) {
    '?' !in base && '#' !in base
  }

  /** A link with two encoded parameters is read back exactly, for every pair of values; the page is the one
      that was meant precisely when the configured base carries no query and no fragment of its own. */
  lemma LinkRoundTrip(base: string, bare: string, path: string, p: string, name1: string, value1: seq<Byte>,
                      name2: string, value2: seq<Byte>)
    requires PlainName(name1) && PlainName(name2) && PlainBase(path)
    requires Slashed(base, bare) && (path == "/" + p || (path == p && !("/" <= p)))
    ensures ReadLink(BuildCallbackUrl(Some(base), path, TwoParams(name1, value1, name2, value2)))
         == Some((bare + "/" + p, Some(Param(name1, value1)), Some(Param(name2, value2))))
      <==> PlainBase(base)
  {
    PageExact(base, bare, path, p);
    PageReadsBack(base, path, name1, value1, name2, value2);
  }

  lemma PageReadsBack(base: string, path: string, name1: string, value1: seq<Byte>, name2: string, value2: seq<Byte>)
    requires PlainName(name1) && PlainName(name2)
    requires PlainBase(path)
    ensures ReadLink(BuildCallbackUrl(Some(base), path, TwoParams(name1, value1, name2, value2)))
         == Some((Page(base, path), Some(Param(name1, value1)), Some(Param(name2, value2))))
      <==> PlainBase(base)
  {
    var query := TwoParams(name1, value1, name2, value2);
    ReadsTwo(name1, value1, name2, value2);
    if PlainBase(base) {
      ReadsParam(name1, value1);
      ReadsParam(name2, value2);
      SplitFirst(query, '#');
      WholeLink(base, path, query);
    } else {
      SpoiltPage(base, path, query);
    }
  }

  lemma ReadsTwo(name1: string, value1: seq<Byte>, name2: string, value2: seq<Byte>)
    requires PlainName(name1) && PlainName(name2)
    ensures var query := TwoParams(name1, value1, name2, value2);
      && query != "" && '#' !in query
      && SplitOnce(query, '&') == Some((OneParam(name1, value1), OneParam(name2, value2)))
  {
    var first, second := OneParam(name1, value1), OneParam(name2, value2);
    ReadsParam(name1, value1);
    ReadsParam(name2, value2);
    SplitAt(first, '&', second);
    assert forall c :: c in first + "&" + second <==> c in first || c == '&' || c in second;
  }

  lemma PageChars(base: string, path: string, c: char)
    requires c != '/' && c !in path
    ensures c in Page(base, path) <==> c in base
  {
    var trimmed := TrimEndSlashes(base);
    var tail := if "/" <= path then path else "/" + path;
    assert forall d :: d in tail ==> d == '/' || d in path;
    assert forall d :: d in Page(base, path) <==> d in trimmed || d in tail;
    assert forall d :: d in trimmed ==> d in base by {
      assert base == trimmed + base[|trimmed|..];
    }
  }

  lemma LinkParts(base: string, path: string, query: string)
    requires query != ""
    ensures BuildCallbackUrl(Some(base), path, query) == Page(base, path) + ['?'] + query
  {
  }

  /** Under a plain base the page ends at the question mark, and only the query can hold a number sign. */
  lemma WholeLink(base: string, path: string, query: string)
    requires PlainBase(base) && PlainBase(path) && query != ""
    ensures BeforeFragment(BuildCallbackUrl(Some(base), path, query))
         == Page(base, path) + ['?'] + BeforeFragment(query)
    ensures SplitOnce(BeforeFragment(BuildCallbackUrl(Some(base), path, query)), '?')
         == Some((Page(base, path), BeforeFragment(query)))
  {
    var page := Page(base, path);
    var head := page + ['?'];
    LinkParts(base, path, query);
    PageChars(base, path, '?');
    PageChars(base, path, '#');
    SplitFirst(query, '#');
    assert '#' !in head;
    if '#' in query {
      var (before, after) := SplitOnce(query, '#').value;
      assert head + query == (head + before) + ['#'] + after;
      assert forall c :: c in head + before <==> c in head || c in before;
      SplitAt(head + before, '#', after);
    } else {
      assert forall c :: c in head + query <==> c in head || c in query;
      SplitFirst(head + query, '#');
    }
    SplitAt(page, '?', BeforeFragment(query));
  }

  /** A page that is read holds neither sign. */
  lemma SpoiltPage(base: string, path: string, query: string)
    requires !PlainBase(base) && PlainBase(path)
    ensures var read := ReadLink(BuildCallbackUrl(Some(base), path, query));
      read.Some? ==> read.value.0 != Page(base, path)
  {
    var link := BuildCallbackUrl(Some(base), path, query);
    var cut := BeforeFragment(link);
    SplitFirst(link, '#');
    SplitFirst(cut, '?');
    PageChars(base, path, '?');
    PageChars(base, path, '#');
    if SplitOnce(cut, '?').Some? {
      var (page, _) := SplitOnce(cut, '?').value;
      assert forall c :: c in page ==> c in cut;
    }
  }

  /** The verification link. */
  lemma VerifyLinkRoundTrip(base: string, bare: string, token: seq<Byte>, email: seq<Byte>)
    requires Slashed(base, bare)
    ensures ReadLink(VerifyLink(Some(base), token, email))
         == Some((bare + "/" + "verify", Some(Param("token", token)), Some(Param("email", email))))
      <==> PlainBase(base)
  {
    assert "verify"[0] != '/';
    LinkRoundTrip(base, bare, "verify", "verify", "token", token, "email", email);
  }

  /** The wallet confirmation link. */
  lemma WalletLinkRoundTrip(base: string, bare: string, token: seq<Byte>, wallet: seq<Byte>)
    requires Slashed(base, bare)
    ensures ReadLink(WalletLink(Some(base), token, wallet))
         == Some((bare + "/" + "wallet/confirm", Some(Param("token", token)), Some(Param("wallet", wallet))))
      <==> PlainBase(base)
  {
    assert "wallet/confirm"[0] != '/';
    LinkRoundTrip(base, bare, "wallet/confirm", "wallet/confirm", "token", token, "wallet", wallet);
  }

  // ----- The password reset link does not encode its token -----

  function Raw(bytes: seq<Byte>): string {
    seq(|bytes|, i requires 0 <= i < |bytes| => bytes[i] as char)
  }

  function OneRawParam(name: string, value: seq<Byte>): string {
    name + "=" + Raw(value)
  }

  function ResetLink(frontend: Option<string>, token: seq<Byte>): string {
    BuildCallbackUrl(frontend, "reset-password", OneRawParam("token", token))
  }

  ghost predicate HasEscape(s: string) {
    exists i :: 0 <= i < |s| && EscapeAt(s, i)
  }

  lemma {:induction false} DecodedLength(s: string)
    ensures |Decoded(s)| <= |s|
    ensures HasEscape(s) ==> |Decoded(s)| < |s|
    decreases |s|
  {
    if s != "" {
      if EscapeAt(s, 0) {
        DecodedLength(s[3..]);
      } else {
        DecodedLength(s[1..]);
        if i :| 0 <= i < |s| && EscapeAt(s, i) {
          assert EscapeAt(s[1..], i - 1);
        }
      }
    }
  }

  lemma {:induction false} DecodedRaw(bytes: seq<Byte>)
    requires !HasEscape(Raw(bytes))
    ensures Decoded(Raw(bytes)) == bytes
    decreases |bytes|
  {
    if bytes != [] {
      var s := Raw(bytes);
      assert !EscapeAt(s, 0);
      assert s[1..] == Raw(bytes[1..]);
      forall i | 0 <= i < |s| - 1
        ensures !EscapeAt(s[1..], i)
      {
        assert !EscapeAt(s, i + 1);
      }
      DecodedRaw(bytes[1..]);
    }
  }

  /** What a reader gets for a value that was written as it is: no more than its part before an ampersand. */
  lemma RawQueryRead(name: string, raw: string)
    requires PlainName(name)
    ensures var query := name + "=" + raw;
      && (SplitOnce(query, '&').Some? <==> '&' in raw)
      && ('&' !in raw ==> ReadParam(query) == Some(Param(name, Decoded(raw))))
      && ('&' in raw ==>
            var read := ReadParam(SplitOnce(query, '&').value.0);
            read.Some? && |read.value.value| < |raw|)
  {
    var query := name + "=" + raw;
    SplitFirst(query, '&');
    assert forall c :: c in query <==> c in name || c == '=' || c in raw;
    if '&' in raw {
      CutShort(name, raw);
    } else {
      assert query == name + ['='] + raw;
      SplitAt(name, '=', raw);
    }
  }

  /** An ampersand in the value ends it. */
  lemma CutShort(name: string, raw: string)
    requires PlainName(name) && '&' in raw
    ensures SplitOnce(name + "=" + raw, '&').Some?
    ensures var read := ReadParam(SplitOnce(name + "=" + raw, '&').value.0);
      read.Some? && |read.value.value| < |raw|
  {
    SplitFirst(raw, '&');
    var (kept, rest) := SplitOnce(raw, '&').value;
    var first := name + "=" + kept;
    assert forall c :: c in first <==> c in name || c == '=' || c in kept;
    assert name + "=" + raw == first + ['&'] + rest;
    SplitAt(first, '&', rest);
    assert first == name + ['='] + kept;
    SplitAt(name, '=', kept);
    DecodedLength(kept);
  }

  /** So does a number sign. */
  lemma FragmentCutsValue(name: string, raw: string)
    requires PlainName(name)
    ensures BeforeFragment(name + "=" + raw) == name + "=" + BeforeFragment(raw)
    ensures if '#' in raw then |BeforeFragment(raw)| < |raw| else BeforeFragment(raw) == raw
  {
    var head := name + "=";
    assert '#' !in head;
    SplitFirst(raw, '#');
    if '#' in raw {
      var (before, after) := SplitOnce(raw, '#').value;
      assert head + raw == (head + before) + ['#'] + after;
      assert forall c :: c in head + before <==> c in head || c in before;
      SplitAt(head + before, '#', after);
    } else {
      assert forall c :: c in head + raw <==> c in head || c in raw;
      SplitFirst(head + raw, '#');
    }
  }

  /** Every character of it can be part of the value. */
  ghost predicate Verbatim(raw: string) {
    '&' !in raw && '#' !in raw && !HasEscape(raw)
  }

  lemma RawLinkExact(base: string, path: string, name: string, value: seq<Byte>)
    requires PlainName(name) && PlainBase(base)
    requires PlainBase(path)
    ensures ReadLink(BuildCallbackUrl(Some(base), path, OneRawParam(name, value)))
         == Some((Page(base, path), Some(Param(name, value)), None))
      <==> Verbatim(Raw(value))
  {
    var raw := Raw(value);
    var kept := BeforeFragment(raw);
    WholeLink(base, path, OneRawParam(name, value));
    FragmentCutsValue(name, raw);
    RawQueryRead(name, kept);
    DecodedLength(kept);
    if !HasEscape(raw) {
      DecodedRaw(value);
    }
  }

  /** The reader of the reset link gets the token. */
  predicate TokenSurvives(base: string, bare: string, token: seq<Byte>) {
    ReadLink(ResetLink(Some(base), token)) == Some((bare + "/" + "reset-password", Some(Param("token", token)), None))
  }

  /** A reset token survives its link exactly when it holds no ampersand, no number sign and nothing that reads
      as an escape. */
  lemma ResetLinkExact(base: string, bare: string, token: seq<Byte>)
    requires PlainBase(base) && Slashed(base, bare)
    ensures TokenSurvives(base, bare, token) <==> Verbatim(Raw(token))
  {
    assert "reset-password"[0] != '/';
    PageExact(base, bare, "reset-password", "reset-password");
    RawLinkExact(base, "reset-password", "token", token);
  }

  /** The tokens `a&b`, `a#b` and `a%41` do not. */
  lemma ResetLinkLosesToken(base: string, bare: string, token: seq<Byte>)
    requires PlainBase(base) && Slashed(base, bare) && token in {[97, 38, 98], [97, 35, 98], [97, 37, 52, 49]}
    ensures !TokenSurvives(base, bare, token)
  {
    if token[1] == 37 {
      assert EscapeAt(Raw(token), 1);
    } else {
      assert Raw(token)[1] in {'&', '#'};
    }
    ResetLinkExact(base, bare, token);
  }

  // ----- Rewriting an upstream link -----

  function Find(s: string, pattern: string): Option<nat>
    ensures Find(s, pattern).Some? ==> Find(s, pattern).value + |pattern| <= |s|
  {
    if pattern <= s then Some(0)
    else if s == "" then None
    else
      match Find(s[1..], pattern)
      case None => None
      case Some(i) => Some(i + 1)
  }

  /** What follows scheme and host: from the first slash behind the first scheme separator on. */
  function Cut(upstream: string): (i: Option<nat>)
    ensures i.Some? ==> 3 <= i.value < |upstream|
  {
    match Find(upstream, "://")
    case None => None
    case Some(end) =>
      match Find(upstream[end + 3..], "/")
      case None => None
      case Some(slash) => Some(end + 3 + slash)
  }

  function Behind(upstream: string): string {
    match Cut(upstream)
    case None => upstream
    case Some(i) => upstream[i..]
  }

  function RewriteUrl(frontend: Option<string>, upstream: string): string {
    if frontend.None? || upstream == "" then upstream else TrimEndSlashes(frontend.value) + Behind(upstream)
  }

  lemma {:induction false} FindAt(before: string, pattern: string, after: string)
    requires pattern != "" && pattern[0] !in before
    ensures Find(before + pattern + after, pattern) == Some(|before|)
    decreases |before|
  {
    var s := before + pattern + after;
    if before != "" {
      assert s[0] == before[0];
      assert s[1..] == before[1..] + pattern + after;
      FindAt(before[1..], pattern, after);
    } else {
      assert s == pattern + after;
    }
  }

  predicate IsAt(s: string, i: int, pattern: string) {
    0 <= i <= |s| - |pattern| && s[i..i + |pattern|] == pattern
  }

  /** Whatever the upstream link is, it is kept whole behind the base exactly when no slash follows a scheme
      separator in it, be that one in its query. A link that starts with its path should be kept so. */
  lemma RewriteKeepsWhole(base: string, bare: string, upstream: string)
    requires upstream != "" && Slashed(base, bare)
    ensures RewriteUrl(Some(base), upstream) == bare + upstream
       <==> !exists i, j :: IsAt(upstream, i, "://") && i + 3 <= j < |upstream| && upstream[j] == '/'
  {
    TrimmedToBare(base, bare);
    SameBehind(bare, Behind(upstream), upstream);
    CutExact(upstream);
  }

  lemma CutExact(upstream: string)
    ensures Cut(upstream).None?
       <==> !exists i, j :: IsAt(upstream, i, "://") && i + 3 <= j < |upstream| && upstream[j] == '/'
  {
    FindExact(upstream, "://");
    match Find(upstream, "://")
    case None =>
    case Some(end) =>
      SlashBehind(upstream, end + 3);
      assert IsAt(upstream, end, "://");
  }

  lemma SlashBehind(s: string, from: nat)
    requires from <= |s|
    ensures Find(s[from..], "/").Some? <==> exists j :: from <= j < |s| && s[j] == '/'
  {
    var rest := s[from..];
    FindExact(rest, "/");
    match Find(rest, "/")
    case None =>
      forall j | from <= j < |s|
        ensures s[j] != '/'
      {
        assert !IsAt(rest, j - from, "/");
        assert rest[j - from..j - from + 1] == [s[j]];
      }
    case Some(i) =>
      assert rest[i..i + 1] == [s[from + i]];
  }

  lemma Shifted(s: string, k: int, pattern: string)
    requires s != "" && 1 <= k
    ensures IsAt(s, k, pattern) == IsAt(s[1..], k - 1, pattern)
  {
    var n := |pattern|;
    if k <= |s| - n {
      assert s[k..k + n] == s[1..][k - 1..k - 1 + n];
    }
  }

  /** The first place of the pattern, if it has one. */
  lemma {:induction false} FindExact(s: string, pattern: string)
    requires pattern != ""
    ensures Find(s, pattern).Some? ==> IsAt(s, Find(s, pattern).value, pattern)
    ensures forall k :: IsAt(s, k, pattern) ==> Find(s, pattern).Some? && Find(s, pattern).value <= k
    decreases |s|
  {
    if pattern <= s {
      assert IsAt(s, 0, pattern);
    } else if s != "" {
      FindExact(s[1..], pattern);
      forall k | 1 <= k
        ensures IsAt(s, k, pattern) == IsAt(s[1..], k - 1, pattern)
      {
        Shifted(s, k, pattern);
      }
      assert !IsAt(s, 0, pattern);
    }
  }

  lemma SameBehind(origin: string, a: string, b: string)
    ensures origin + a == origin + b <==> a == b
  {
    assert (origin + a)[|origin|..] == a && (origin + b)[|origin|..] == b;
  }

  /** An absolute link: scheme, authority, and the path, query and fragment that follow it (section 3 of
      RFC 3986). */
  predicate AbsoluteLink(scheme: string, authority: string, rest: string) {
    && ':' !in scheme && '/' !in scheme && '?' !in scheme && '#' !in scheme
    && '/' !in authority && '?' !in authority && '#' !in authority
    && (rest == "" || rest[0] == '/' || rest[0] == '?' || rest[0] == '#')
  }

  /** What is behind the authority, from its first slash on. */
  function FromSlash(rest: string): Option<string> {
    match SplitOnce(rest, '/')
    case None => None
    case Some((_, after)) => Some(['/'] + after)
  }

  lemma FirstSlash(authority: string, rest: string)
    requires '/' !in authority
    ensures var tail := authority + rest;
      match Find(tail, "/")
      case Some(slash) => FromSlash(rest) == Some(tail[slash..])
      case None => FromSlash(rest) == None
  {
    SplitFirst(rest, '/');
    if '/' in rest {
      var (before, after) := SplitOnce(rest, '/').value;
      var head := authority + before;
      assert authority + rest == head + "/" + after;
      assert forall c :: c in head <==> c in authority || c in before;
      FindAt(head, "/", after);
      assert (head + "/" + after)[|head|..] == ['/'] + after;
    } else {
      assert forall c :: c in authority + rest <==> c in authority || c in rest;
      FindNone(authority + rest, '/');
    }
  }

  lemma BehindAuthority(scheme: string, authority: string, rest: string, upstream: string)
    requires AbsoluteLink(scheme, authority, rest) && upstream == scheme + "://" + (authority + rest)
    ensures Behind(upstream) == FromSlash(rest).UnwrapOr(upstream)
  {
    var tail := authority + rest;
    FindAt(scheme, "://", tail);
    assert upstream[|scheme| + 3..] == tail;
    FirstSlash(authority, rest);
    if slash: nat :| Find(tail, "/") == Some(slash) {
      assert upstream[|scheme| + 3 + slash..] == tail[slash..];
    }
  }

  /** Rewriting takes the origin from the configured base and keeps everything behind the authority exactly
      when a path is there. Without one it falls back to the whole upstream link, or to what follows the first
      slash of the query. */
  lemma RewriteExact(base: string, bare: string, scheme: string, authority: string, rest: string)
    requires AbsoluteLink(scheme, authority, rest) && Slashed(base, bare)
    ensures var written := RewriteUrl(Some(base), scheme + "://" + (authority + rest));
      && (written == bare + rest <==> "/" <= rest)
      && ('/' !in rest ==> written == bare + (scheme + "://" + (authority + rest)))
  {
    TrimmedToBare(base, bare);
    var upstream := scheme + "://" + (authority + rest);
    BehindAuthority(scheme, authority, rest, upstream);
    SplitFirst(rest, '/');
    var kept := FromSlash(rest).UnwrapOr(upstream);
    assert kept == rest <==> "/" <= rest by {
      assert |kept| == |rest| ==> '/' in rest;
    }
    SameBehind(bare, kept, rest);
  }

  lemma {:induction false} FindNone(s: string, c: char)
    requires c !in s
    ensures Find(s, [c]) == None
    decreases |s|
  {
    if s != "" {
      assert s[0] in s;
      FindNone(s[1..], c);
    }
  }

  lemma BehindHost(head: string, host: string, path: string)
    requires ':' !in head && '/' !in host
    ensures Behind(head + "://" + (host + "/" + path)) == "/" + path
  {
    var tail := host + "/" + path;
    var upstream := head + "://" + tail;
    FindAt(head, "://", tail);
    assert upstream[|head| + 3..] == tail;
    FindAt(host, "/", path);
    assert upstream[|head| + 3 + |host|..] == tail[|host|..] == "/" + path;
  }

  /** A link that carries a URL loses what comes before the path of that URL. */
  lemma RewriteLosesHead(base: string, bare: string, head: string, host: string, path: string)
    requires ':' !in head && '/' !in host && Slashed(base, bare)
    ensures RewriteUrl(Some(base), head + "://" + (host + "/" + path)) == bare + ("/" + path)
  {
    TrimmedToBare(base, bare);
    BehindHost(head, host, path);
  }

  /** So a relative link with a URL in its query loses its path, and the token with it. */
  lemma RewriteLosesPath(base: string, bare: string)
    requires Slashed(base, bare)
    ensures RewriteUrl(Some(base), "/verify?token=t&next=http://h/p") == bare + "/p"
  {
    var head, host, path := "/verify?token=t&next=http", "h", "p";
    assert head + "://" + (host + "/" + path) == "/verify?token=t&next=http://h/p";
    assert "/" + path == "/p";
    RewriteLosesHead(base, bare, head, host, path);
  }

  /** The link `http://h?t` comes out with two origins. */
  lemma RewriteDoublesOrigin(base: string, bare: string)
    requires Slashed(base, bare)
    ensures RewriteUrl(Some(base), "http://h?t") == bare + "http://h?t"
  {
    var scheme, authority, rest := "http", "h", "?t";
    assert AbsoluteLink(scheme, authority, rest) && '/' !in rest;
    assert scheme + "://" + (authority + rest) == "http://h?t";
    RewriteExact(base, bare, scheme, authority, rest);
  }
}
