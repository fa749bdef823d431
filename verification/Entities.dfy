/** HTML entity decoding: nine global replacements in a row undo the template engine's escaping. */
module Entities {
  /** `str::replace`: leftmost matches, left to right, without overlap. */
  function Replace(s: string, pattern: string, c: char): string
    requires pattern != ""
    decreases |s|
  {
    if s == "" then ""
    else if pattern <= s then [c] + Replace(s[|pattern|..], pattern, c)
    else [s[0]] + Replace(s[1..], pattern, c)
  }

  const LT := "&lt;"
  const GT := "&gt;"
  const QUOT := "&quot;"
  const APOS_DECIMAL := "&#39;"
  const APOS_HEX := "&#x27;"
  const SLASH_UPPER := "&#x2F;"
  const SLASH_LOWER := "&#x2f;"
  const NBSP := "&nbsp;"
  const AMP := "&amp;"

  function DecodeEntities(text: string): string {
    var t1 := Replace(text, LT, '<');
    var t2 := Replace(t1, GT, '>');
    var t3 := Replace(t2, QUOT, '\"');
    var t4 := Replace(t3, APOS_DECIMAL, '\'');
    var t5 := Replace(t4, APOS_HEX, '\'');
    var t6 := Replace(t5, SLASH_UPPER, '/');
    var t7 := Replace(t6, SLASH_LOWER, '/');
    var t8 := Replace(t7, NBSP, ' ');
    Replace(t8, AMP, '&')
  }

  /** The entity Tera's autoescaper writes for a character, if it escapes it. */
  function Entity(c: char): string {
    if c == '&' then AMP
    else if c == '<' then LT
    else if c == '>' then GT
    else if c == '\"' then QUOT
    else if c == '\'' then APOS_HEX
    else if c == '/' then SLASH_UPPER
    else [c]
  }

  const ESCAPED: set<char> := {'&', '<', '>', '\"', '\'', '/'}

  /** The text with the characters in `some` still escaped. */
  function EscapeOnly(s: string, some: set<char>): string {
    if s == "" then ""
    else (if s[0] in some then Entity(s[0]) else [s[0]]) + EscapeOnly(s[1..], some)
  }

  function Escape(s: string): string {
    EscapeOnly(s, ESCAPED)
  }

  predicate IsPattern(pattern: string) {
    pattern in {LT, GT, QUOT, APOS_DECIMAL, APOS_HEX, SLASH_UPPER, SLASH_LOWER, NBSP, AMP}
  }

  /** Two of these entities are equal or differ inside both: neither starts the other, whatever follows. */
  lemma NoPrefix(pattern: string, entity: string, tail: string)
    requires IsPattern(pattern) && IsPattern(entity) && pattern != entity
    ensures !(pattern <= entity + tail)
  {
    var e := entity + tail;
    assert e[1] == entity[1] && e[2] == entity[2] && e[3] == entity[3];
    assert |entity| > 4 ==> e[4] == entity[4];
  }

  /** Text without an ampersand passes every replacement. */
  lemma {:induction false} PassesPlain(plain: string, tail: string, pattern: string, c: char)
    requires pattern != "" && pattern[0] == '&' && '&' !in plain
    ensures Replace(plain + tail, pattern, c) == plain + Replace(tail, pattern, c)
    decreases |plain|
  {
    if plain == "" {
      assert plain + tail == tail;
    } else {
      var s := plain + tail;
      assert s[1..] == plain[1..] + tail;
      assert s[0] != '&';
      PassesPlain(plain[1..], tail, pattern, c);
    }
  }

  lemma EntityShape(d: char)
    requires d in ESCAPED
    ensures |Entity(d)| > 1 && Entity(d)[0] == '&' && '&' !in Entity(d)[1..]
  {
  }

  /** An entity other than the pattern passes the replacement as a whole. */
  lemma PassesEntity(entity: string, tail: string, pattern: string, c: char)
    requires pattern != "" && pattern[0] == '&'
    requires |entity| > 1 && '&' !in entity[1..] && !(pattern <= entity + tail)
    ensures Replace(entity + tail, pattern, c) == entity + Replace(tail, pattern, c)
  {
    var s := entity + tail;
    assert s[1..] == entity[1..] + tail;
    PassesPlain(entity[1..], tail, pattern, c);
    assert entity == [entity[0]] + entity[1..];
  }

  /** While ampersands are still escaped, one replacement decodes its own entity everywhere and changes
      nothing else: what it writes cannot complete another entity. */
  lemma {:induction false} Stage(s: string, some: set<char>, pattern: string, c: char)
    requires IsPattern(pattern) && '&' in some && some <= ESCAPED
    requires forall d :: d in ESCAPED && Entity(d) == pattern ==> d == c
    ensures Replace(EscapeOnly(s, some), pattern, c)
         == EscapeOnly(s, if c in ESCAPED && Entity(c) == pattern then some - {c} else some)
    decreases |s|
  {
    if s != "" {
      var tail := EscapeOnly(s[1..], some);
      Stage(s[1..], some, pattern, c);
      if s[0] !in some {
        PassesPlain([s[0]], tail, pattern, c);
      } else if Entity(s[0]) == pattern {
        assert (pattern + tail)[|pattern|..] == tail;
      } else {
        EntityShape(s[0]);
        NoPrefix(pattern, Entity(s[0]), tail);
        PassesEntity(Entity(s[0]), tail, pattern, c);
      }
    }
  }

  /** The first three replacements leave the apostrophes, slashes and ampersands. */
  lemma EarlyStages(s: string)
    ensures Replace(Replace(Replace(Escape(s), LT, '<'), GT, '>'), QUOT, '\"') == EscapeOnly(s, {'&', '\'', '/'})
  {
    var s1, s2, s3 := {'&', '>', '\"', '\'', '/'}, {'&', '\"', '\'', '/'}, {'&', '\'', '/'};
    assert Replace(Escape(s), LT, '<') == EscapeOnly(s, s1) by {
      Stage(s, ESCAPED, LT, '<');
      assert ESCAPED - {'<'} == s1;
    }
    assert Replace(EscapeOnly(s, s1), GT, '>') == EscapeOnly(s, s2) by {
      Stage(s, s1, GT, '>');
      assert s1 - {'>'} == s2;
    }
    assert Replace(EscapeOnly(s, s2), QUOT, '\"') == EscapeOnly(s, s3) by {
      Stage(s, s2, QUOT, '\"');
      assert s2 - {'\"'} == s3;
    }
  }

  lemma ApostropheStages(s: string, t: string)
    requires t == EscapeOnly(s, {'&', '\'', '/'})
    ensures Replace(Replace(t, APOS_DECIMAL, '\''), APOS_HEX, '\'') == EscapeOnly(s, {'&', '/'})
  {
    Stage(s, {'&', '\'', '/'}, APOS_DECIMAL, '\'');
    Stage(s, {'&', '\'', '/'}, APOS_HEX, '\'');
    assert {'&', '\'', '/'} - {'\''} == {'&', '/'};
  }

  lemma SlashStages(s: string, t: string)
    requires t == EscapeOnly(s, {'&', '/'})
    ensures Replace(Replace(t, SLASH_UPPER, '/'), SLASH_LOWER, '/') == EscapeOnly(s, {'&'})
  {
    Stage(s, {'&', '/'}, SLASH_UPPER, '/');
    assert {'&', '/'} - {'/'} == {'&'};
    Stage(s, {'&'}, SLASH_LOWER, '/');
  }

  lemma LateStages(s: string)
    ensures Replace(Replace(EscapeOnly(s, {'&'}), NBSP, ' '), AMP, '&') == s
  {
    assert Replace(EscapeOnly(s, {'&'}), NBSP, ' ') == EscapeOnly(s, {'&'}) by {
      Stage(s, {'&'}, NBSP, ' ');
    }
    assert Replace(EscapeOnly(s, {'&'}), AMP, '&') == EscapeOnly(s, {}) by {
      Stage(s, {'&'}, AMP, '&');
      assert {'&'} - {'&'} == {};
    }
    NothingEscaped(s);
  }

  /** Decoding what the autoescaper wrote gives back every text, ampersands and literal entities included:
      nothing is decoded twice. */
  lemma RoundTrip(s: string)
    ensures DecodeEntities(Escape(s)) == s
  {
    EarlyStages(s);
    var t3 := EscapeOnly(s, {'&', '\'', '/'});
    ApostropheStages(s, t3);
    SlashStages(s, Replace(Replace(t3, APOS_DECIMAL, '\''), APOS_HEX, '\''));
    LateStages(s);
  }

  lemma {:induction false} NothingEscaped(s: string)
    ensures EscapeOnly(s, {}) == s
    decreases |s|
  {
    if s != "" {
      NothingEscaped(s[1..]);
    }
  }

  /** The escaper is therefore injective: two texts never render alike. */
  lemma EscapeInjective(s: string, t: string)
    requires Escape(s) == Escape(t)
    ensures s == t
  {
    RoundTrip(s);
    RoundTrip(t);
  }

  // ----- Every entity -----

  /** The nine replacements, in order. */
  const REPLACEMENTS: seq<(string, char)> := [
    ("&lt;", '<'), ("&gt;", '>'), ("&quot;", '\"'), ("&#39;", '\''), ("&#x27;", '\''), ("&#x2F;", '/'), ("&#x2f;", '/'),
    ("&nbsp;", ' '), ("&amp;", '&')]

  function DecodedFrom(s: string, k: nat): string
    requires k <= 9
    decreases 9 - k
  {
    if k == 9 then s
    else
      assert REPLACEMENTS[k].0 != "";
      DecodedFrom(Replace(s, REPLACEMENTS[k].0, REPLACEMENTS[k].1), k + 1)
  }

  lemma DecodesInOrder(s: string)
    ensures DecodeEntities(s) == DecodedFrom(s, 0)
  {
    var t1 := Replace(s, LT, '<');
    var t2 := Replace(t1, GT, '>');
    var t3 := Replace(t2, QUOT, '\"');
    var t4 := Replace(t3, APOS_DECIMAL, '\'');
    var t5 := Replace(t4, APOS_HEX, '\'');
    var t6 := Replace(t5, SLASH_UPPER, '/');
    var t7 := Replace(t6, SLASH_LOWER, '/');
    var t8 := Replace(t7, NBSP, ' ');
    assert DecodedFrom(t8, 8) == DecodedFrom(Replace(t8, AMP, '&'), 9);
    assert DecodedFrom(t4, 4) == DecodedFrom(t8, 8) by {
      assert DecodedFrom(t6, 6) == DecodedFrom(t7, 7) == DecodedFrom(t8, 8);
      assert DecodedFrom(t4, 4) == DecodedFrom(t5, 5) == DecodedFrom(t6, 6);
    }
    assert DecodedFrom(s, 0) == DecodedFrom(t4, 4) by {
      assert DecodedFrom(t2, 2) == DecodedFrom(t3, 3) == DecodedFrom(t4, 4);
      assert DecodedFrom(s, 0) == DecodedFrom(t1, 1) == DecodedFrom(t2, 2);
    }
  }

  lemma ArePatterns(k: nat)
    requires k < 9
    ensures IsPattern(REPLACEMENTS[k].0) && |REPLACEMENTS[k].0| > 1
    ensures REPLACEMENTS[k].0[0] == '&' && '&' !in REPLACEMENTS[k].0[1..]
    ensures REPLACEMENTS[k].1 == '&' ==> k == 8
    ensures forall j :: 0 <= j < 9 && j != k ==> REPLACEMENTS[j].0 != REPLACEMENTS[k].0
  {
  }

  lemma {:induction false} PlainStays(s: string, k: nat)
    requires k <= 9 && '&' !in s
    ensures DecodedFrom(s, k) == s
    decreases 9 - k
  {
    if k < 9 {
      ArePatterns(k);
      PassesPlain(s, "", REPLACEMENTS[k].0, REPLACEMENTS[k].1);
      assert s + "" == s;
      PlainStays(s, k + 1);
    }
  }

  /** One replacement within plain text: it decodes its own entity, and passes another. */
  lemma OneReplaced(before: string, entity: string, after: string, pattern: string, c: char)
    requires '&' !in before && '&' !in after && |entity| > 1 && '&' !in entity[1..]
    requires pattern != "" && pattern[0] == '&' && (pattern == entity || !(pattern <= entity + after))
    ensures Replace(before + entity + after, pattern, c)
         == if pattern == entity then before + [c] + after else before + entity + after
  {
    var tail := entity + after;
    assert before + entity + after == before + tail;
    PassesPlain(before, tail, pattern, c);
    PassesPlain(after, "", pattern, c);
    assert after + "" == after;
    if pattern == entity {
      assert tail[|entity|..] == after;
      assert Replace(tail, pattern, c) == [c] + after;
    } else {
      PassesEntity(entity, after, pattern, c);
    }
  }

  lemma {:induction false} OneDecoded(before: string, j: nat, after: string, k: nat)
    requires k <= j < 9 && '&' !in before && '&' !in after
    ensures DecodedFrom(before + REPLACEMENTS[j].0 + after, k) == before + [REPLACEMENTS[j].1] + after
    decreases j - k
  {
    var entity, c := REPLACEMENTS[j].0, REPLACEMENTS[j].1;
    ArePatterns(j);
    ArePatterns(k);
    if k < j {
      NoPrefix(REPLACEMENTS[k].0, entity, after);
    }
    OneReplaced(before, entity, after, REPLACEMENTS[k].0, REPLACEMENTS[k].1);
    if k < j {
      OneDecoded(before, j, after, k + 1);
    } else if k < 8 {
      PlainStays(before + [c] + after, k + 1);
    }
  }

  /** Each of the nine entities decodes to its character within any text that holds no other. */
  lemma EntityDecodes(before: string, j: nat, after: string)
    requires j < 9 && '&' !in before && '&' !in after
    ensures DecodeEntities(before + REPLACEMENTS[j].0 + after) == before + [REPLACEMENTS[j].1] + after
  {
    DecodesInOrder(before + REPLACEMENTS[j].0 + after);
    OneDecoded(before, j, after, 0);
  }
}
