/** The three places where a query writes a caller's text into SQL syntax, and
    the syntax read back: `LIKE` patterns, `text[]` literals and jsonpath. */
module Quoting {
  import opened Prelude
  import opened Backend

  predicate IsControl(c: char) {
    c < ' ' || '\U{7f}' <= c <= '\U{9f}'
  }

  // ------------------------------------------------------------------- LIKE

  /** `text LIKE pattern ESCAPE '\'` */
  predicate Like(pattern: string, text: string)
    decreases |pattern| + |text|
  {
    if pattern == "" then text == ""
    else if pattern[0] == '%' then Like(pattern[1..], text) || (text != "" && Like(pattern, text[1..]))
    else if text == "" then false
    else if pattern[0] == '\\' then
      |pattern| >= 2 && text[0] == pattern[1] && Like(pattern[2..], text[1..])
    else (pattern[0] == '_' || pattern[0] == text[0]) && Like(pattern[1..], text[1..])
  }

  predicate Wild(c: char) {
    c == '%' || c == '_' || c == '\\'
  }

  function Escaped(s: string): string {
    if s == "" then ""
    else (if Wild(s[0]) then ['\\', s[0]] else [s[0]]) + Escaped(s[1..])
  }

  method EscapeLike(s: string) returns (out: string)
    ensures out == Escaped(s)
  {
    out := "";
    for i := 0 to |s|
      invariant out + Escaped(s[i..]) == Escaped(s)
    {
      ghost var before := out;
      ghost var step := if Wild(s[i]) then ['\\', s[i]] else [s[i]];
      if Wild(s[i]) {
        out := out + ['\\'];
      }
      out := out + [s[i]];
      assert out == before + step;
      assert s[i..][1..] == s[i + 1..];
      Regroup(before, step, Escaped(s[i + 1..]));
    }
  }

  /** Somewhere in `text`, `part` stands. */
  predicate Within(part: string, text: string) {
    exists i :: 0 <= i <= |text| && part <= text[i..]
  }

  lemma {:induction false} AnythingLikePercent(text: string)
    ensures Like("%", text)
  {
    if text != "" { AnythingLikePercent(text[1..]); }
  }

  /** An escaped text followed by `%` matches exactly the texts it begins. */
  lemma {:induction false} PrefixPattern(s: string, text: string)
    ensures Like(Escaped(s) + "%", text) <==> s <= text
  {
    var p := Escaped(s) + "%";
    if s == "" {
      assert p == "%";
      AnythingLikePercent(text);
    } else if text != "" {
      PrefixPattern(s[1..], text[1..]);
      var rest := Escaped(s[1..]) + "%";
      if Wild(s[0]) {
        assert p == ['\\', s[0]] + rest;
        assert p[2..] == rest;
      } else {
        assert p == [s[0]] + rest;
        assert p[1..] == rest;
      }
      assert s <= text <==> s[0] == text[0] && s[1..] <= text[1..];
    }
  }

  /** Between two `%` it matches exactly the texts that contain it. */
  lemma {:induction false} ContainsPattern(s: string, text: string)
    ensures Like("%" + Escaped(s) + "%", text) <==> Within(s, text)
  {
    var p := "%" + Escaped(s) + "%";
    assert p[1..] == Escaped(s) + "%";
    PrefixPattern(s, text);
    assert text[0..] == text;
    if text != "" {
      ContainsPattern(s, text[1..]);
      if i :| 0 <= i <= |text[1..]| && s <= text[1..][i..] {
        assert text[1..][i..] == text[i + 1..];
      }
      if i :| 0 < i <= |text| && s <= text[i..] {
        assert text[1..][i - 1..] == text[i..];
      }
    } else {
      assert Within(s, text) <==> s <= text;
    }
  }

  // --------------------------------------------------------- text[] literals

  predicate RenderableSegment(s: string) {
    s != "" && forall c :: c in s ==> !IsControl(c)
  }

  predicate Renderable(path: seq<string>) {
    path != [] && forall s :: s in path ==> RenderableSegment(s)
  }

  /** One character of a segment, as the array literal inside the SQL string
      spells it. */
  function QuotedChar(c: char): string {
    if c == '"' || c == '\\' then ['\\', c]
    else if c == '\'' then "''"
    else [c]
  }

  function Quoted(s: string): string {
    if s == "" then "" else QuotedChar(s[0]) + Quoted(s[1..])
  }

  /** The elements of the literal from some position on, each with its comma
      except the first. */
  function Elements(path: seq<string>, first: bool): string {
    if path == [] then ""
    else (if first then "" else ",") + "\"" + Quoted(path[0]) + "\"" + Elements(path[1..], false)
  }

  function LiteralText(path: seq<string>): string {
    "'{" + Elements(path, true) + "}'"
  }

  method PushSegment(before: string, segment: string) returns (out: string)
    ensures out == before + ("\"" + Quoted(segment) + "\"")
  {
    out := before + "\"";
    ghost var begun := out;
    for j := 0 to |segment|
      invariant out + Quoted(segment[j..]) == begun + Quoted(segment)
    {
      assert segment[j..][1..] == segment[j + 1..];
      Regroup(out, QuotedChar(segment[j]), Quoted(segment[j + 1..]));
      out := out + QuotedChar(segment[j]);
    }
    Regroup(before, "\"", Quoted(segment));
    Regroup(before, "\"" + Quoted(segment), "\"");
    out := out + "\"";
  }

  lemma ElementsStep(out: string, path: seq<string>, i: nat)
    requires i < |path|
    ensures out + Elements(path[i..], i == 0) ==
              (if i == 0 then out else out + ",") + ("\"" + Quoted(path[i]) + "\"") + Elements(path[i + 1..], false)
  {
    var comma := if i == 0 then "" else ",";
    var rest := Elements(path[i + 1..], false);
    assert path[i..][1..] == path[i + 1..];
    Regroup(comma, "\"", Quoted(path[i]));
    Regroup(comma, "\"" + Quoted(path[i]), "\"");
    var element := "\"" + Quoted(path[i]) + "\"";
    assert Elements(path[i..], i == 0) == comma + element + rest;
    Regroup(comma, element, rest);
    Regroup(out, comma, element + rest);
    Regroup(out + comma, element, rest);
    assert out + "" == out;
  }

  method ArrayLiteral(path: seq<string>) returns (r: Option<string>)
    ensures r == if Renderable(path) then Some(LiteralText(path)) else None
  {
    if path == [] {
      return None;
    }
    var out := "'{";
    for i := 0 to |path|
      invariant forall k :: 0 <= k < i ==> RenderableSegment(path[k])
      invariant out + Elements(path[i..], i == 0) == "'{" + Elements(path, true)
    {
      if !RenderableSegment(path[i]) {
        return None;
      }
      ElementsStep(out, path, i);
      if i > 0 {
        out := out + ",";
      }
      out := PushSegment(out, path[i]);
    }
    assert path[|path|..] == [] && out + "" == out;
    r := Some(out + "}'");
  }

  /** The characters of a single-quoted SQL string, its opening quote read. */
  function UnquoteSql(s: string): Option<string> {
    if s == "" then None
    else if s[0] != '\'' then
      var rest := UnquoteSql(s[1..]);
      if rest.None? then None else Some([s[0]] + rest.value)
    else if |s| == 1 then Some("")
    else if s[1] != '\'' then None
    else
      var rest := UnquoteSql(s[2..]);
      if rest.None? then None else Some("'" + rest.value)
  }

  /** A quoted array element, its opening quote read, and what follows it. */
  function UnquoteElement(s: string): (r: Option<(string, string)>)
    ensures r.Some? ==> |r.value.1| < |s|
  {
    if s == "" then None
    else if s[0] == '"' then Some(("", s[1..]))
    else if s[0] == '\\' then
      if |s| == 1 then None
      else
        var rest := UnquoteElement(s[2..]);
        if rest.None? then None else Some(([s[1]] + rest.value.0, rest.value.1))
    else
      var rest := UnquoteElement(s[1..]);
      if rest.None? then None else Some(([s[0]] + rest.value.0, rest.value.1))
  }

  /** The elements up to the closing brace. */
  function ReadElements(s: string): Option<seq<string>>
    decreases |s|
  {
    if s == "" || s[0] != '"' then None
    else
      var head := UnquoteElement(s[1..]);
      if head.None? then None
      else if head.value.1 == "}" then Some([head.value.0])
      else if head.value.1 != "" && head.value.1[0] == ',' then
        var tail := ReadElements(head.value.1[1..]);
        if tail.None? then None else Some([head.value.0] + tail.value)
      else None
  }

  /** What Postgres makes of `'{…}'` as a `text[]`, for the quoted form. */
  function ReadLiteral(text: string): Option<seq<string>> {
    if text == "" || text[0] != '\'' then None
    else
      var s := UnquoteSql(text[1..]);
      if s.None? || s.value == "" || s.value[0] != '{' then None else ReadElements(s.value[1..])
  }

  // The literal before the SQL string's own quoting.
  function PlainChar(c: char): string {
    if c == '"' || c == '\\' then ['\\', c] else [c]
  }

  function Plain(s: string): string {
    if s == "" then "" else PlainChar(s[0]) + Plain(s[1..])
  }

  function PlainElements(path: seq<string>, first: bool): string {
    if path == [] then ""
    else (if first then "" else ",") + "\"" + Plain(path[0]) + "\"" + PlainElements(path[1..], false)
  }

  lemma {:induction false} UnquoteStep(c: char, rest: string)
    ensures UnquoteSql(rest).Some? ==>
              UnquoteSql((if c == '\'' then "''" else [c]) + rest) == Some([c] + UnquoteSql(rest).value)
  {
    if c == '\'' {
      assert ("''" + rest)[2..] == rest;
    } else {
      assert ([c] + rest)[1..] == rest;
    }
  }

  lemma {:induction false} UnquoteChar(c: char, tail: string)
    requires UnquoteSql(tail).Some?
    ensures UnquoteSql(QuotedChar(c) + tail) == Some(PlainChar(c) + UnquoteSql(tail).value)
  {
    hide UnquoteSql;
    UnquoteStep(c, tail);
    if c == '"' || c == '\\' {
      UnquoteStep('\\', [c] + tail);
      Regroup(['\\'], [c], tail);
      Regroup(['\\'], [c], UnquoteSql(tail).value);
      assert ['\\', c] == ['\\'] + [c];
    }
  }

  lemma {:induction false} UnquoteSqlQuoted(s: string, rest: string)
    requires UnquoteSql(rest).Some?
    ensures UnquoteSql(Quoted(s) + rest) == Some(Plain(s) + UnquoteSql(rest).value)
  {
    hide UnquoteSql, QuotedChar, PlainChar;
    var u := UnquoteSql(rest).value;
    if s == "" {
      assert Quoted(s) + rest == rest;
      assert Plain(s) + u == u;
    } else {
      UnquoteSqlQuoted(s[1..], rest);
      Regroup(QuotedChar(s[0]), Quoted(s[1..]), rest);
      Regroup(PlainChar(s[0]), Plain(s[1..]), u);
      UnquoteChar(s[0], Quoted(s[1..]) + rest);
    }
  }

  lemma {:induction false} UnquoteSqlElements(path: seq<string>, first: bool)
    ensures UnquoteSql(Elements(path, first) + "}'") == Some(PlainElements(path, first) + "}")
  {
    if path == [] {
      UnquoteStep('}', "'");
      assert Elements(path, first) + "}'" == "}" + "'";
      assert PlainElements(path, first) + "}" == "}" + "";
    } else {
      UnquoteSqlElements(path[1..], false);
      var rest := Elements(path[1..], false) + "}'";
      var read := PlainElements(path[1..], false) + "}";
      UnquoteStep('"', rest);
      assert UnquoteSql("\"" + rest) == Some("\"" + read);
      UnquoteSqlQuoted(path[0], "\"" + rest);
      var body := Quoted(path[0]) + ("\"" + rest);
      UnquoteStep('"', body);
      assert UnquoteSql("\"" + body) == Some("\"" + UnquoteSql(body).value);
      UnquoteStep(',', "\"" + body);
      assert UnquoteSql("," + ("\"" + body)) == Some("," + ("\"" + UnquoteSql(body).value));
      ElementsSplit(path, first);
      assert "" + ("\"" + body) == "\"" + body;
      assert "" + ("\"" + UnquoteSql(body).value) == "\"" + UnquoteSql(body).value;
    }
  }

  lemma RegroupElement(comma: string, body: string, after: string, end: string)
    ensures comma + "\"" + body + "\"" + after + end == comma + ("\"" + (body + ("\"" + (after + end))))
  {
    Regroup(comma + "\"" + body + "\"", after, end);
    Regroup(comma + "\"" + body, "\"", after + end);
    Regroup(comma + "\"", body, "\"" + (after + end));
    Regroup(comma, "\"", body + ("\"" + (after + end)));
  }

  lemma {:induction false} ElementsSplit(path: seq<string>, first: bool)
    requires path != []
    ensures Elements(path, first) + "}'" ==
              (if first then "" else ",") + ("\"" + (Quoted(path[0]) + ("\"" + (Elements(path[1..], false) + "}'"))))
    ensures PlainElements(path, first) + "}" ==
              (if first then "" else ",") + ("\"" + (Plain(path[0]) + ("\"" + (PlainElements(path[1..], false) + "}"))))
  {
    var comma := if first then "" else ",";
    RegroupElement(comma, Quoted(path[0]), Elements(path[1..], false), "}'");
    RegroupElement(comma, Plain(path[0]), PlainElements(path[1..], false), "}");
  }

  lemma {:induction false} UnquotePlain(s: string, rest: string)
    ensures UnquoteElement(Plain(s) + "\"" + rest) == Some((s, rest))
  {
    var whole := Plain(s) + "\"" + rest;
    if s == "" {
      assert whole == "\"" + rest;
    } else {
      UnquotePlain(s[1..], rest);
      var tail := Plain(s[1..]) + "\"" + rest;
      assert whole == PlainChar(s[0]) + tail;
      if |PlainChar(s[0])| == 2 {
        assert whole[2..] == tail;
      } else {
        assert whole[1..] == tail;
      }
      assert s == [s[0]] + s[1..];
    }
  }

  /** One element and what follows its closing quote. */
  lemma {:induction false} ReadOneElement(segment: string, after: string)
    requires after != ""
    ensures ReadElements("\"" + (Plain(segment) + ("\"" + after))) ==
              (if after == "}" then Some([segment])
               else if after[0] != ',' then None
               else
                 var rest := ReadElements(after[1..]);
                 if rest.None? then None else Some([segment] + rest.value))
  {
    hide Plain, UnquoteElement;
    var body := Plain(segment) + ("\"" + after);
    UnquotePlain(segment, after);
    Regroup(Plain(segment), "\"", after);
    assert ("\"" + body)[1..] == body;
  }

  lemma {:induction false} ReadPlainElements(path: seq<string>)
    requires path != []
    ensures ReadElements(PlainElements(path, true) + "}") == Some(path)
  {
    hide Plain, ReadElements, PlainElements, Elements, Quoted;
    var after := PlainElements(path[1..], false) + "}";
    FirstElement(path);
    ReadOneElement(path[0], after);
    if |path| == 1 {
      NoElements(path[1..]);
      assert path == [path[0]];
    } else {
      ReadPlainElements(path[1..]);
      CommaFirst(path[1..]);
      assert path == [path[0]] + path[1..];
    }
  }

  lemma {:induction false} NoElements(path: seq<string>)
    requires path == []
    ensures PlainElements(path, false) + "}" == "}"
  {
  }

  lemma {:induction false} FirstElement(path: seq<string>)
    requires path != []
    ensures PlainElements(path, true) + "}" == "\"" + (Plain(path[0]) + ("\"" + (PlainElements(path[1..], false) + "}")))
  {
    hide Plain, PlainElements, Elements, Quoted;
    ElementsSplit(path, true);
    var read := "\"" + (Plain(path[0]) + ("\"" + (PlainElements(path[1..], false) + "}")));
    assert "" + read == read;
  }

  lemma {:induction false} CommaFirst(path: seq<string>)
    requires path != []
    ensures var after := PlainElements(path, false) + "}";
            |after| > 1 && after[0] == ',' && after[1..] == PlainElements(path, true) + "}"
  {
    hide Plain, PlainElements, Elements, Quoted;
    ElementsSplit(path, false);
    ElementsSplit(path, true);
  }

  /** A rendered path, read back through both layers of quoting, is the path.
      The rendering is therefore injective. */
  lemma LiteralReadsBack(path: seq<string>)
    requires path != []
    ensures ReadLiteral(LiteralText(path)) == Some(path)
  {
    UnquoteSqlElements(path, true);
    var inner := "{" + (Elements(path, true) + "}'");
    assert LiteralText(path)[1..] == inner;
    assert inner[1..] == Elements(path, true) + "}'";
    assert UnquoteSql(inner) == Some("{" + (PlainElements(path, true) + "}"));
    assert ("{" + (PlainElements(path, true) + "}"))[1..] == PlainElements(path, true) + "}";
    ReadPlainElements(path);
  }

  // ---------------------------------------------------------------- jsonpath

  predicate JsonPathRenderable(path: seq<string>) {
    forall s :: s in path ==> forall c :: c in s ==> !IsControl(c)
  }

  /** `segment.replace('"', "\\\"")`: the backslash is not escaped. */
  function PathChars(s: string): string {
    if s == "" then "" else (if s[0] == '"' then "\\\"" else [s[0]]) + PathChars(s[1..])
  }

  function PathSteps(path: seq<string>): string {
    if path == [] then "" else ".\"" + PathChars(path[0]) + "\"" + PathSteps(path[1..])
  }

  function JsonPathText(path: seq<string>): string {
    "$" + PathSteps(path)
  }

  method JsonPath(path: seq<string>) returns (r: Option<string>)
    ensures r == if JsonPathRenderable(path) then Some(JsonPathText(path)) else None
  {
    var out := "$";
    for i := 0 to |path|
      invariant forall k :: 0 <= k < i ==> forall c :: c in path[k] ==> !IsControl(c)
      invariant out + PathSteps(path[i..]) == JsonPathText(path)
    {
      if exists c :: c in path[i] && IsControl(c) {
        assert path[i] in path;
        return None;
      }
      var step := ".\"" + PathChars(path[i]) + "\"";
      assert path[i..][1..] == path[i + 1..];
      Regroup(out, step, PathSteps(path[i + 1..]));
      out := out + step;
    }
    assert path[|path|..] == [] && out + "" == out;
    r := Some(out);
  }

  /** A jsonpath string, its opening quote read, and what follows it. */
  function UnquoteKey(be: Backend, s: string): (r: Option<(string, string)>)
    ensures r.Some? ==> |r.value.1| < |s|
  {
    if s == "" then None
    else if s[0] == '"' then Some(("", s[1..]))
    else if s[0] == '\\' then
      var c := be.unescape(s[1..]);
      if c.None? || !(1 <= c.value.1 < |s|) then None
      else
        var rest := UnquoteKey(be, s[1 + c.value.1..]);
        if rest.None? then None else Some(([c.value.0] + rest.value.0, rest.value.1))
    else
      var rest := UnquoteKey(be, s[1..]);
      if rest.None? then None else Some(([s[0]] + rest.value.0, rest.value.1))
  }

  function ReadSteps(be: Backend, s: string): Option<seq<string>>
    decreases |s|
  {
    if s == "" then Some([])
    else if |s| < 2 || s[0] != '.' || s[1] != '"' then None
    else
      var key := UnquoteKey(be, s[2..]);
      if key.None? then None
      else
        var rest := ReadSteps(be, key.value.1);
        if rest.None? then None else Some([key.value.0] + rest.value)
  }

  /** The keys of a jsonpath made of quoted member steps. */
  function ReadJsonPath(be: Backend, text: string): Option<seq<string>> {
    if text == "" || text[0] != '$' then None else ReadSteps(be, text[1..])
  }

  predicate NoBackslash(path: seq<string>) {
    forall s :: s in path ==> '\\' !in s
  }

  lemma UnescapeQuote(be: Backend, rest: string)
    requires be.Sound()
    ensures be.unescape("\"" + rest) == Some(('"', 1))
  {
  }

  lemma {:induction false} KeyStep(be: Backend, c: char, tail: string)
    requires be.Sound() && c != '\\' && UnquoteKey(be, tail).Some?
    ensures var (key, rest) := UnquoteKey(be, tail).value;
            UnquoteKey(be, (if c == '"' then "\\\"" else [c]) + tail) == Some(([c] + key, rest))
  {
    if c == '"' {
      var whole := "\\\"" + tail;
      UnescapeQuote(be, tail);
      assert whole[1..] == "\"" + tail && whole[2..] == tail;
    } else {
      assert ([c] + tail)[1..] == tail;
    }
  }

  lemma {:induction false} UnquotePathChars(be: Backend, s: string, rest: string)
    requires be.Sound() && '\\' !in s
    ensures UnquoteKey(be, PathChars(s) + ("\"" + rest)) == Some((s, rest))
  {
    hide Backend.Sound;
    if s == "" {
      assert PathChars(s) + ("\"" + rest) == "\"" + rest;
    } else {
      UnquotePathChars(be, s[1..], rest);
      KeyStep(be, s[0], PathChars(s[1..]) + ("\"" + rest));
      Regroup(if s[0] == '"' then "\\\"" else [s[0]], PathChars(s[1..]), "\"" + rest);
      assert s == [s[0]] + s[1..];
    }
  }

  lemma {:induction false} StepsSplit(path: seq<string>)
    requires path != []
    ensures PathSteps(path) == ".\"" + (PathChars(path[0]) + ("\"" + PathSteps(path[1..])))
  {
    Regroup(".\"" + PathChars(path[0]), "\"", PathSteps(path[1..]));
    Regroup(".\"", PathChars(path[0]), "\"" + PathSteps(path[1..]));
  }

  lemma {:induction false} StepRead(be: Backend, body: string)
    ensures var s := ".\"" + body;
            ReadSteps(be, s) ==
              (var key := UnquoteKey(be, body);
               if key.None? then None
               else
                 var rest := ReadSteps(be, key.value.1);
                 if rest.None? then None else Some([key.value.0] + rest.value))
  {
    assert (".\"" + body)[2..] == body;
  }

  lemma {:induction false} StepsReadBack(be: Backend, path: seq<string>)
    requires be.Sound() && NoBackslash(path)
    ensures ReadSteps(be, PathSteps(path)) == Some(path)
  {
    hide Backend.Sound;
    if path != [] {
      var rest := PathSteps(path[1..]);
      var body := PathChars(path[0]) + ("\"" + rest);
      StepsReadBack(be, path[1..]);
      UnquotePathChars(be, path[0], rest);
      StepRead(be, body);
      StepsSplit(path);
      assert path == [path[0]] + path[1..];
    }
  }

  /** How many characters of `s` are `c`. */
  function Count(s: string, c: char): nat {
    if s == "" then 0 else (if s[0] == c then 1 else 0) + Count(s[1..], c)
  }

  lemma {:induction false} CountPositive(s: string, c: char)
    ensures c in s <==> Count(s, c) > 0
  {
    if s != "" { CountPositive(s[1..], c); }
  }

  lemma {:induction false} PathCharsLength(s: string)
    ensures |PathChars(s)| == |s| + Count(s, '"')
  {
    if s != "" { PathCharsLength(s[1..]); }
  }

  /** Reading a key takes two characters or more for every quote and every
      backslash it yields. */
  lemma {:induction false} KeyTakes(be: Backend, s: string)
    ensures UnquoteKey(be, s).Some? ==>
              var (key, rest) := UnquoteKey(be, s).value;
              |s| >= |key| + Count(key, '"') + Count(key, '\\') + 1 + |rest|
    decreases |s|
  {
    if s != "" && s[0] != '"' {
      if s[0] == '\\' {
        var c := be.unescape(s[1..]);
        if c.Some? && 1 <= c.value.1 < |s| { KeyTakes(be, s[1 + c.value.1..]); }
      } else {
        KeyTakes(be, s[1..]);
      }
    }
  }

  function Weight(path: seq<string>): nat {
    if path == [] then 0
    else 3 + |path[0]| + Count(path[0], '"') + Count(path[0], '\\') + Weight(path[1..])
  }

  lemma {:induction false} StepsTake(be: Backend, s: string)
    ensures ReadSteps(be, s).Some? ==> |s| >= Weight(ReadSteps(be, s).value)
    decreases |s|
  {
    if |s| >= 2 && s[0] == '.' && s[1] == '"' {
      KeyTakes(be, s[2..]);
      var key := UnquoteKey(be, s[2..]);
      if key.Some? {
        StepsTake(be, key.value.1);
        var rest := ReadSteps(be, key.value.1);
        if rest.Some? { assert ([key.value.0] + rest.value)[1..] == rest.value; }
      }
    }
  }

  lemma {:induction false} StepsLength(path: seq<string>)
    ensures |PathSteps(path)| <= Weight(path)
    ensures |PathSteps(path)| == Weight(path) ==> NoBackslash(path)
  {
    if path != [] {
      StepsLength(path[1..]);
      PathCharsLength(path[0]);
      CountPositive(path[0], '\\');
    }
  }

  /** A rendered jsonpath is read back as the path it was made from exactly
      when no segment holds a backslash. */
  lemma JsonPathReadsBack(be: Backend, path: seq<string>)
    requires be.Sound()
    ensures ReadJsonPath(be, JsonPathText(path)) == Some(path) <==> NoBackslash(path)
  {
    assert JsonPathText(path)[1..] == PathSteps(path);
    if NoBackslash(path) {
      StepsReadBack(be, path);
    } else if ReadSteps(be, PathSteps(path)) == Some(path) {
      StepsTake(be, PathSteps(path));
      StepsLength(path);
    }
  }

  /** A path whose last key holds a backslash and an `n`, as `ext.a/b.k\\n` has. */
  const SLASHED: seq<string> := ["ext", "a/b", SLASHED_KEY]

  const SLASHED_KEY := "k\\n"

  /** Where the database reads that escape as a line feed, the path asked for is
      another. */
  lemma {:induction false} SlashedReadsElsewhere(be: Backend)
    requires be.Sound() && be.unescape("n\"") == Some(('\n', 1))
    ensures JsonPathRenderable(SLASHED)
    ensures ReadJsonPath(be, JsonPathText(SLASHED)) == Some(["ext", "a/b", "k\n"])
  {
    hide Backend.Sound, ReadSteps, PathSteps, PathChars;
    var last := [SLASHED_KEY];
    LastStep(be);
    OneStep(be, "a/b", last);
    OneStep(be, "ext", ["a/b"] + last);
    assert SLASHED == ["ext"] + (["a/b"] + last);
    assert ["ext"] + (["a/b"] + ["k\n"]) == ["ext", "a/b", "k\n"];
    assert JsonPathText(SLASHED)[1..] == PathSteps(SLASHED);
  }

  lemma {:induction false} OneStep(be: Backend, segment: string, rest: seq<string>)
    requires be.Sound() && '\\' !in segment && ReadSteps(be, PathSteps(rest)).Some?
    ensures ReadSteps(be, PathSteps([segment] + rest)) == Some([segment] + ReadSteps(be, PathSteps(rest)).value)
  {
    hide Backend.Sound, PathSteps, PathChars, ReadSteps, UnquoteKey;
    var path := [segment] + rest;
    assert path[1..] == rest;
    StepsSplit(path);
    UnquotePathChars(be, segment, PathSteps(rest));
    StepRead(be, PathChars(segment) + ("\"" + PathSteps(rest)));
  }

  lemma {:induction false} EscapeStep(be: Backend, tail: string)
    requires UnquoteKey(be, tail).Some? && be.unescape("n" + tail) == Some(('\n', 1))
    ensures UnquoteKey(be, "\\n" + tail) == Some((['\n'] + UnquoteKey(be, tail).value.0, UnquoteKey(be, tail).value.1))
  {
    var s := "\\n" + tail;
    assert s[1..] == "n" + tail && s[2..] == tail;
  }

  lemma {:induction false} LastStep(be: Backend)
    requires be.Sound() && be.unescape("n\"") == Some(('\n', 1))
    ensures ReadSteps(be, PathSteps([SLASHED_KEY])) == Some(["k\n"])
  {
    hide Backend.Sound, PathSteps;
    var path := [SLASHED_KEY];
    assert path[1..] == [] && "\""[1..] == "";
    assert UnquoteKey(be, "\"") == Some(("", ""));
    assert "n" + "\"" == "n\"";
    EscapeStep(be, "\"");
    var body := "\\n" + "\"";
    assert UnquoteKey(be, body) == Some((['\n'] + "", ""));
    KeyStep(be, 'k', body);
    SlashedChars();
    StepsSplit(path);
    assert PathSteps(path[1..]) == "" by { NoSteps(); }
    assert ['k'] + body == SLASHED_KEY + ("\"" + "");
    StepRead(be, ['k'] + body);
    assert PathSteps(path) == ".\"" + (['k'] + body);
    assert ReadSteps(be, "") == Some([]);
    assert ['k'] + (['\n'] + "") == "k\n" && ["k\n"] + [] == ["k\n"];
  }

  lemma NoSteps()
    ensures PathSteps([]) == ""
  {
  }

  lemma {:induction false} SlashedChars()
    ensures PathChars(SLASHED_KEY) == SLASHED_KEY
  {
    var s := SLASHED_KEY;
    assert s[1..] == "\\n" && s[1..][1..] == "n" && s[1..][1..][1..] == "";
    assert PathChars("") == "" && PathChars("n") == "n" && PathChars("\\n") == "\\n";
  }
}
