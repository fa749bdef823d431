/** What clients are shown of a notification, in the pushed frame and in the listing. */
module Wire {
  import opened Domain
  import opened Strings

  const HTML := ".html.tera"
  const TXT := ".txt.tera"

  function TemplateStem(template: string): string {
    match SplitOnce(template, '.')
    case Some((stem, _)) => stem
    case None => template
  }

  predicate EndsWith(s: string, suffix: string) {
    |suffix| <= |s| && s[|s| - |suffix|..] == suffix
  }

  function TextTemplateId(template: string): string {
    if EndsWith(template, HTML) then template[..|template| - |HTML|] + TXT else template
  }

  /** Upper case of one character, which may take several. */
  type Casing = char -> string

  function Capitalize(upper: Casing, word: string): string {
    if word == "" then "" else upper(word[0]) + word[1..]
  }

  /** The non-empty parts between underscores. */
  function Words(stem: string): seq<string>
    decreases |stem|
  {
    match SplitOnce(stem, '_')
    case None => if stem == "" then [] else [stem]
    case Some((word, rest)) =>
      SplitFirst(stem, '_');
      (if word == "" then [] else [word]) + Words(rest)
  }

  function Join(upper: Casing, words: seq<string>, separator: string): string {
    if words == [] then ""
    else if |words| == 1 then Capitalize(upper, words[0])
    else Capitalize(upper, words[0]) + separator + Join(upper, words[1..], separator)
  }

  function PascalCase(upper: Casing, stem: string): string {
    Join(upper, Words(stem), "")
  }

  function Humanize(upper: Casing, stem: string): string {
    Join(upper, Words(stem), " ")
  }

  function EventOf(upper: Casing, stem: string): string {
    match stem
    case "trade_matched" => "OrderMatched"
    case "welcome" => "EmailVerified"
    case "new_login" => "UserLoggedIn"
    case "password_reset" => "PasswordResetRequested"
    case "confirm_wallet" => "WalletLinkRequested"
    case "verify_email" => "VerificationEmailRequested"
    case _ => PascalCase(upper, stem)
  }

  function EventType(upper: Casing, template: string): string {
    EventOf(upper, TemplateStem(template))
  }

  // ----- Title and message -----

  predicate IsUnderline(line: string) {
    var rule := Trim(line);
    |rule| >= 3 && ((forall c :: c in rule ==> c == '-') || (forall c :: c in rule ==> c == '='))
  }

  function SplitHeading(text: string): (Option<string>, string) {
    match SplitOnce(text, '\n')
    case None => (None, text)
    case Some((first, rest)) =>
      var (second, body) := SplitOnce(rest, '\n').UnwrapOr((rest, ""));
      if IsUnderline(second) then (Some(Trim(first)), body) else (None, text)
  }

  function FirstText(variables: Variables, keys: seq<string>): Option<string> {
    if keys == [] then None
    else if keys[0] in variables && variables[keys[0]].Text? then Some(variables[keys[0]].text)
    else FirstText(variables, keys[1..])
  }

  function Variable(variables: Variables, keys: seq<string>): Option<string> {
    match FirstText(variables, keys)
    case Some(s) => if Trim(s) == "" then None else Some(Trim(s))
    case None => None
  }

  const TITLE_KEYS := ["title", "headline"]
  const BODY_KEYS := ["body"]

  function TitleAndMessage(upper: Casing, template: string, variables: Variables, rendered: string): (string, string) {
    var (heading, body) := SplitHeading(Trim(rendered));
    (Variable(variables, TITLE_KEYS).UnwrapOr(heading.UnwrapOr(Humanize(upper, TemplateStem(template)))),
     Variable(variables, BODY_KEYS).UnwrapOr(Trim(body)))
  }

  datatype NotificationView = NotificationView(
    notification: Row,
    eventType: string,
    title: string,
    message: string,
    isRead: bool)

  function Project(upper: Casing, row: Row, rendered: string): NotificationView {
    var (title, message) := TitleAndMessage(upper, row.template, row.variables, rendered);
    NotificationView(row, EventType(upper, row.template), title, message, row.readAt.Some?)
  }

  // ----- The two transports -----

  /** The template engine: text, or an error. */
  type Engine = (string, Variables) -> Option<string>

  /** One row of the listing: rendered from the text template, or from nothing when that fails. */
  function Listed(upper: Casing, engine: Engine, row: Row): NotificationView {
    Project(upper, row, engine(TextTemplateId(row.template), row.variables).UnwrapOr(""))
  }

  /** The frame `dispatch` sends to the sockets; none when rendering fails. */
  function Frame(upper: Casing, engine: Engine, row: Row): Option<NotificationView> {
    match engine(row.template, row.variables)
    case Some(content) => Some(Project(upper, row, content))
    case None => None
  }

  ghost predicate SameShown(a: NotificationView, b: NotificationView) {
    a.eventType == b.eventType && a.title == b.title && a.message == b.message
  }

  /** A frame and a later listing of the same notification show the same, when there is a frame. */
  ghost predicate Agree(upper: Casing, engine: Engine, pushed: Row, listed: Row) {
    Frame(upper, engine, pushed).Some? ==> SameShown(Frame(upper, engine, pushed).value, Listed(upper, engine, listed))
  }

  /** The variables alone decide what is shown. */
  predicate Spelled(variables: Variables) {
    Variable(variables, TITLE_KEYS).Some? && Variable(variables, BODY_KEYS).Some?
  }

  lemma AgreesOnText(upper: Casing, engine: Engine, pushed: Row, listed: Row)
    requires pushed.template == listed.template && pushed.variables == listed.variables
    requires !EndsWith(pushed.template, HTML) || Spelled(pushed.variables)
    ensures Agree(upper, engine, pushed, listed)
  {
  }

  /** A heading of one letter and a body of one. */
  function Leaflet(c: char, d: char): string {
    [c] + "\n---\n" + [d]
  }

  /** Renders the two siblings differently in every part. */
  function Contrary(template: string): Engine {
    (id: string, _: Variables) => Some(if id == template then Leaflet('A', 'x') else Leaflet('B', 'y'))
  }

  lemma LeafletParts(c: char, d: char)
    requires !IsSpace(c) && !IsSpace(d)
    ensures SplitHeading(Trim(Leaflet(c, d))) == (Some([c]), [d]) && Trim([d]) == [d]
  {
    var text := Leaflet(c, d);
    assert Trim(text) == text;
    assert text == [c] + ['\n'] + ("---" + ['\n'] + [d]);
    SplitAt([c], '\n', "---" + ['\n'] + [d]);
    SplitAt("---", '\n', [d]);
    assert Trim("---") == "---";
    assert TrimStart([c]) == [c] && Trim([c]) == [c];
  }

  lemma HtmlMoves(template: string)
    requires EndsWith(template, HTML)
    ensures TextTemplateId(template) != template
  {
    var n := |template|;
    assert TextTemplateId(template)[n - |HTML| + 1] == 't' && template[n - |HTML|..][1] == 'h';
  }

  lemma ShownApart(upper: Casing, row: Row, a: string, b: string)
    requires !Spelled(row.variables)
    requires SplitHeading(Trim(a)) == (Some("A"), "x") && SplitHeading(Trim(b)) == (Some("B"), "y")
    requires Trim("x") == "x" && Trim("y") == "y"
    ensures !SameShown(Project(upper, row, a), Project(upper, row, b))
  {
  }

  lemma HtmlDisagrees(upper: Casing, row: Row)
    requires EndsWith(row.template, HTML) && !Spelled(row.variables)
    ensures !Agree(upper, Contrary(row.template), row, row)
  {
    HtmlMoves(row.template);
    LeafletParts('A', 'x');
    LeafletParts('B', 'y');
    ShownApart(upper, row, Leaflet('A', 'x'), Leaflet('B', 'y'));
  }

  /** Frame and listing agree, however templates render, exactly for rows that are not queued against an HTML
      template and those whose variables carry both title and body. */
  lemma AgreementExact(upper: Casing, row: Row)
    ensures (forall engine: Engine :: Agree(upper, engine, row, row))
       <==> (!EndsWith(row.template, HTML) || Spelled(row.variables))
  {
    if !EndsWith(row.template, HTML) || Spelled(row.variables) {
      forall engine: Engine
        ensures Agree(upper, engine, row, row)
      {
        AgreesOnText(upper, engine, row, row);
      }
    } else {
      HtmlDisagrees(upper, row);
    }
  }

  // ----- Template ids -----

  /** What follows the first dot does not matter. */
  lemma StemBeforeDot(name: string, rest: string, other: string)
    ensures TemplateStem(name + "." + rest) == TemplateStem(name + "." + other)
  {
    SplitFirst(name, '.');
    if '.' in name {
      var (stem, tail) := SplitOnce(name, '.').value;
      assert name + "." + rest == stem + ['.'] + (tail + "." + rest);
      assert name + "." + other == stem + ['.'] + (tail + "." + other);
      SplitAt(stem, '.', tail + "." + rest);
      SplitAt(stem, '.', tail + "." + other);
    } else {
      SplitAt(name, '.', rest);
      SplitAt(name, '.', other);
    }
  }

  lemma TextIsNotHtml(name: string)
    ensures !EndsWith(name + TXT, HTML)
  {
    var text := name + TXT;
    assert text[|text| - 6] == 't';
    if |HTML| <= |text| {
      assert text[|text| - |HTML|..][4] == text[|text| - 6] && HTML[4] == 'l';
    }
  }

  lemma TextHasStem(template: string)
    ensures TemplateStem(TextTemplateId(template)) == TemplateStem(template)
  {
    if EndsWith(template, HTML) {
      var name := template[..|template| - |HTML|];
      assert template == name + "." + "html.tera";
      assert TextTemplateId(template) == name + "." + "txt.tera";
      StemBeforeDot(name, "html.tera", "txt.tera");
    }
  }

  /** The text sibling has the same stem, hence the same event type; being text, it is its own sibling. */
  lemma TextTemplateKeeps(upper: Casing, template: string)
    ensures TemplateStem(TextTemplateId(template)) == TemplateStem(template)
    ensures EventType(upper, TextTemplateId(template)) == EventType(upper, template)
    ensures TextTemplateId(TextTemplateId(template)) == TextTemplateId(template)
  {
    TextHasStem(template);
    if EndsWith(template, HTML) {
      TextIsNotHtml(template[..|template| - |HTML|]);
    }
  }

  // ----- Headings -----

  /** Three dashes or more, or as many equals signs. */
  predicate IsRule(s: string) {
    |s| >= 3 && (s[0] == '-' || s[0] == '=') && forall i :: 0 <= i < |s| ==> s[i] == s[0]
  }

  lemma UnderlineIsRule(line: string)
    ensures IsUnderline(line) <==> IsRule(Trim(line))
  {
    var rule := Trim(line);
    if IsUnderline(line) {
      assert forall i :: 0 <= i < |rule| ==> rule[i] in rule;
    }
  }

  ghost predicate Headed(text: string, first: string, second: string, body: string) {
    && '\n' !in first && '\n' !in second && IsRule(Trim(second))
    && (text == first + "\n" + second + "\n" + body || (text == first + "\n" + second && body == ""))
  }

  /** A heading is split off exactly from a text that is a line, its underline and the rest; such pieces
      rebuild the text. A text without one is its own body. */
  lemma HeadingExact(text: string, heading: string, body: string)
    ensures SplitHeading(text) == (Some(heading), body)
       <==> exists first, second :: Headed(text, first, second, body) && heading == Trim(first)
    ensures SplitHeading(text).0.None? ==> SplitHeading(text).1 == text
  {
    if SplitHeading(text) == (Some(heading), body) {
      SplitFirst(text, '\n');
      var (first, rest) := SplitOnce(text, '\n').value;
      SplitFirst(rest, '\n');
      var (second, tail) := SplitOnce(rest, '\n').UnwrapOr((rest, ""));
      UnderlineIsRule(second);
      if '\n' in rest {
        assert text == first + "\n" + second + "\n" + body;
      }
      assert Headed(text, first, second, body);
    }
    forall first, second | Headed(text, first, second, body) && heading == Trim(first)
      ensures SplitHeading(text) == (Some(heading), body)
    {
      HeadedSplits(text, first, second, body);
    }
  }

  lemma HeadedSplits(text: string, first: string, second: string, body: string)
    requires Headed(text, first, second, body)
    ensures SplitHeading(text) == (Some(Trim(first)), body)
  {
    UnderlineIsRule(second);
    if text == first + "\n" + second + "\n" + body {
      assert text == first + ['\n'] + (second + ['\n'] + body);
      SplitAt(first, '\n', second + ['\n'] + body);
      SplitAt(second, '\n', body);
    } else {
      assert text == first + ['\n'] + second;
      SplitAt(first, '\n', second);
      SplitFirst(second, '\n');
    }
  }

  /** Trimmed text starts with a visible character, so its heading is not blank. */
  lemma HeadingVisible(rendered: string)
    requires SplitHeading(Trim(rendered)).0.Some?
    ensures SplitHeading(Trim(rendered)).0.value != ""
  {
    var text := Trim(rendered);
    TrimExact(rendered);
    SplitFirst(text, '\n');
    var (first, rest) := SplitOnce(text, '\n').value;
    assert first != "" && first[0] == text[0];
    TrimExact(first);
    assert !IsSpace(first[0]);
  }

  // ----- Titles -----

  predicate AllUnderscores(s: string) {
    forall c :: c in s ==> c == '_'
  }

  lemma {:induction false} WordsVisible(stem: string)
    ensures Words(stem) == [] <==> AllUnderscores(stem)
    ensures forall word :: word in Words(stem) ==> word != "" && '_' !in word
    decreases |stem|
  {
    SplitFirst(stem, '_');
    if SplitOnce(stem, '_').Some? {
      var (word, rest) := SplitOnce(stem, '_').value;
      WordsVisible(rest);
      if word != "" {
        assert word[0] in stem;
      } else {
        assert forall c :: c in stem <==> c == '_' || c in rest;
      }
    } else if stem != "" {
      assert stem[0] in stem;
    }
  }

  /** A title is empty exactly when no variable and no heading names it and the stem is only underscores. */
  lemma TitleEmptyExactly(upper: Casing, template: string, variables: Variables, rendered: string)
    requires forall c :: upper(c) != ""
    ensures TitleAndMessage(upper, template, variables, rendered).0 == ""
       <==> Variable(variables, TITLE_KEYS).None? && SplitHeading(Trim(rendered)).0.None?
            && AllUnderscores(TemplateStem(template))
  {
    var stem := TemplateStem(template);
    WordsVisible(stem);
    if Words(stem) != [] {
      var word := Words(stem)[0];
      assert word in Words(stem);
      assert Humanize(upper, stem)[0] == upper(word[0])[0];
    }
    if SplitHeading(Trim(rendered)).0.Some? {
      HeadingVisible(rendered);
    }
  }

  function Snake(words: seq<string>): string {
    if words == [] then ""
    else if |words| == 1 then words[0]
    else words[0] + "_" + Snake(words[1..])
  }

  /** A snake-case stem is read back word by word. */
  lemma {:induction false} WordsOfSnake(words: seq<string>)
    requires forall word :: word in words ==> word != "" && '_' !in word
    ensures Words(Snake(words)) == words
    decreases |words|
  {
    if |words| == 1 {
      SplitFirst(words[0], '_');
      assert words == [words[0]];
    } else if words != [] {
      SplitAt(words[0], '_', Snake(words[1..]));
      WordsOfSnake(words[1..]);
      assert words == [words[0]] + words[1..];
    }
  }

  predicate IsWord(word: string) {
    word != "" && '_' !in word
  }

  lemma JoinTwo(upper: Casing, a: string, b: string, separator: string)
    ensures Join(upper, [a, b], separator) == Capitalize(upper, a) + separator + Capitalize(upper, b)
  {
    assert [a, b][1..] == [b] && Join(upper, [b], separator) == Capitalize(upper, b);
  }

  /** Two words become two capitalised ones, without a space in the event name and with one in the title. */
  lemma TwoWords(upper: Casing, a: string, b: string)
    requires IsWord(a) && IsWord(b)
    ensures PascalCase(upper, a + "_" + b) == upper(a[0]) + a[1..] + (upper(b[0]) + b[1..])
    ensures Humanize(upper, a + "_" + b) == upper(a[0]) + a[1..] + " " + (upper(b[0]) + b[1..])
  {
    assert [a, b][1..] == [b] && Snake([b]) == b && Snake([a, b]) == a + "_" + b;
    WordsOfSnake([a, b]);
    JoinTwo(upper, a, b, "");
    JoinTwo(upper, a, b, " ");
    assert Capitalize(upper, a) + "" == Capitalize(upper, a);
  }

  /** Apart from six templates, the event name is the template's own in another spelling. */
  lemma OrdinaryName(upper: Casing, stem: string, rest: string)
    requires '.' !in stem
    requires stem !in {"trade_matched", "welcome", "new_login", "password_reset", "confirm_wallet", "verify_email"}
    ensures EventType(upper, stem + "." + rest) == PascalCase(upper, stem)
  {
    SplitAt(stem, '.', rest);
  }

  /** Those six have the name of the upstream event. */
  lemma UpstreamName(upper: Casing, stem: string, rest: string)
    requires '.' !in stem
    ensures var name := EventType(upper, stem + "." + rest);
      && (stem == "trade_matched" ==> name == "OrderMatched") && (stem == "welcome" ==> name == "EmailVerified")
      && (stem == "new_login" ==> name == "UserLoggedIn")
      && (stem == "password_reset" ==> name == "PasswordResetRequested")
      && (stem == "confirm_wallet" ==> name == "WalletLinkRequested")
      && (stem == "verify_email" ==> name == "VerificationEmailRequested")
  {
    SplitAt(stem, '.', rest);
  }

  /** The first of the keys that holds a string wins even when it is blank, and then there is no value: a blank
      `title` hides the `headline`. */
  lemma HeadlineHiddenExactly(variables: Variables, visible: string)
    requires "headline" in variables && variables["headline"] == Text(visible) && Trim(visible) != ""
    ensures Variable(variables, TITLE_KEYS).None?
       <==> "title" in variables && variables["title"].Text? && Blank(variables["title"].text)
    ensures !("title" in variables && variables["title"].Text?) ==>
              Variable(variables, TITLE_KEYS) == Some(Trim(visible))
  {
    assert TITLE_KEYS[1..] == ["headline"];
    assert FirstText(variables, ["headline"]) == Some(visible);
    if "title" in variables && variables["title"].Text? {
      TrimExact(variables["title"].text);
    }
  }

  // ----- What is shown -----

  ghost predicate Visible(variables: Variables, key: string) {
    key in variables && variables[key].Text? && !Blank(variables[key].text)
  }

  ghost predicate Named(variables: Variables, key: string) {
    key in variables && variables[key].Text?
  }

  /** The fields of a view by the row and the text rendered for it: the title is the `title` variable, else the
      `headline`, else the heading of the text; the message is the `body` variable, else the text below its
      heading. */
  ghost predicate Shows(v: NotificationView, row: Row, rendered: string) {
    var variables := row.variables;
    && v.notification == row && (v.isRead <==> row.readAt.Some?)
    && (Visible(variables, "title") ==> v.title == Trim(variables["title"].text))
    && (!Named(variables, "title") && Visible(variables, "headline") ==> v.title == Trim(variables["headline"].text))
    && (Visible(variables, "body") ==> v.message == Trim(variables["body"].text))
    && (!Visible(variables, "body") && SplitHeading(Trim(rendered)).0.None? ==> v.message == Trim(rendered))
    && (forall first, second, body :: Headed(Trim(rendered), first, second, body) ==>
          && (!Named(variables, "title") && !Named(variables, "headline") ==> v.title == Trim(first))
          && (!Visible(variables, "body") ==> v.message == Trim(body)))
  }

  lemma TrimTwice(s: string)
    ensures Trim(Trim(s)) == Trim(s)
  {
    TrimExact(s);
  }

  lemma VariableIs(variables: Variables)
    ensures Visible(variables, "title") ==> Variable(variables, TITLE_KEYS) == Some(Trim(variables["title"].text))
    ensures !Named(variables, "title") && Visible(variables, "headline") ==>
              Variable(variables, TITLE_KEYS) == Some(Trim(variables["headline"].text))
    ensures !Named(variables, "title") && !Named(variables, "headline") ==> Variable(variables, TITLE_KEYS) == None
    ensures Variable(variables, BODY_KEYS)
         == if Visible(variables, "body") then Some(Trim(variables["body"].text)) else None
  {
    assert TITLE_KEYS[1..] == ["headline"] && ["headline"][1..] == [] && BODY_KEYS[1..] == [];
    assert FirstText(variables, ["headline"])
        == if Named(variables, "headline") then Some(variables["headline"].text) else None;
    assert FirstText(variables, BODY_KEYS)
        == if Named(variables, "body") then Some(variables["body"].text) else None;
    KeyTrims(variables, "title");
    KeyTrims(variables, "headline");
    KeyTrims(variables, "body");
  }

  lemma KeyTrims(variables: Variables, key: string)
    ensures Visible(variables, key) <==> Named(variables, key) && Trim(variables[key].text) != ""
  {
    if key in variables {
      TrimExact(variables[key].text);
    }
  }

  lemma ProjectShows(upper: Casing, row: Row, rendered: string)
    ensures Shows(Project(upper, row, rendered), row, rendered)
  {
    VariableIs(row.variables);
    TrimTwice(rendered);
    forall first, second, body | Headed(Trim(rendered), first, second, body)
      ensures SplitHeading(Trim(rendered)) == (Some(Trim(first)), body)
    {
      HeadedSplits(Trim(rendered), first, second, body);
    }
    HeadingExact(Trim(rendered), "", "");
  }

  /** What the two transports show of a row: the frame the text of its own template, the listing that of the text
      sibling. */
  lemma ShownExact(upper: Casing, engine: Engine, row: Row)
    ensures Shows(Listed(upper, engine, row), row, engine(TextTemplateId(row.template), row.variables).UnwrapOr(""))
    ensures match engine(row.template, row.variables)
            case None => Frame(upper, engine, row).None?
            case Some(content) =>
              Frame(upper, engine, row).Some? && Shows(Frame(upper, engine, row).value, row, content)
  {
    ProjectShows(upper, row, engine(TextTemplateId(row.template), row.variables).UnwrapOr(""));
    if engine(row.template, row.variables).Some? {
      ProjectShows(upper, row, engine(row.template, row.variables).value);
    }
  }
}
