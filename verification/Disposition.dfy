/**
  `_content_disposition`, against a parser for what it prints: the header grammar of section 4.1 of
  RFC 6266 with the extended values of section 3.2.1 of RFC 5987.
 */
module Disposition {
  import opened Common
  import opened Utf8

  predicate Alphanumeric(c: char) {
    'A' <= c <= 'Z' || 'a' <= c <= 'z' || '0' <= c <= '9'
  }

  // ----- the printer -----

  const ATTACHMENT := "attachment"
  const NAME := "name"
  const FILENAME := "filename"
  const FILENAME_STAR := "filename*"
  const UTF_8 := "UTF-8"

  /** What the regular expression lets stand in the fallback name. */
  predicate SafeInFallback(c: char) {
    Alphanumeric(c) || c == '.' || c == '_' || c == '-'
  }

  function FallbackChar(c: CodePoint): char {
    if c < 0x80 && SafeInFallback(c as char) then c as char else '_'
  }

  function Fallback(path: Text): string {
    if path == [] then ATTACHMENT else seq(|path|, i requires 0 <= i < |path| => FallbackChar(path[i]))
  }

  const HEX := "0123456789ABCDEF"

  /** `quote` with nothing declared safe: what is left alone are its "always safe" characters. */
  function QuoteByte(b: Byte): string {
    if b < 0x80 && (SafeInFallback(b as char) || b as char == '~') then [b as char]
    else ['%', HEX[b / 16], HEX[b % 16]]
  }

  function Quote(b: seq<Byte>): string {
    if b == [] then "" else QuoteByte(b[0]) + Quote(b[1..])
  }

  function Tagged(parameters: seq<string>): string {
    if parameters == [] then "" else "; " + parameters[0] + Tagged(parameters[1..])
  }

  function Quoted(name: string, text: string): string {
    name + "=\"" + text + "\""
  }

  function ExtendedText(name: string, charset: string, octets: seq<Byte>): string {
    name + "=" + charset + "''" + Quote(octets)
  }

  function Parameters(path: Text, octets: seq<Byte>, field: Option<string>): seq<string> {
    var file := [Quoted(FILENAME, Fallback(path)), ExtendedText(FILENAME_STAR, UTF_8, octets)];
    if field.Some? then [Quoted(NAME, field.value)] + file else file
  }

  /** None stands for the `UnicodeEncodeError` that `quote` raises. */
  function ContentDisposition(path: Text, field: Option<string>): Option<string> {
    var octets := Encode(path);
    if octets.None? then None else Some(ATTACHMENT + Tagged(Parameters(path, octets.value, field)))
  }

  // ----- the parser -----

  datatype Value = Plain(text: string) | Extended(charset: string, language: string, octets: seq<Byte>)
  datatype Parameter = Parameter(name: string, value: Value)
  datatype Header = Header(kind: string, parameters: seq<Parameter>)
  datatype Parsed<+T> = Parsed(value: T, rest: string)

  predicate Separator(c: char) {
    || c == '(' || c == ')' || c == '<' || c == '>' || c == '@' || c == ',' || c == ';' || c == ':' || c == '\\'
    || c == '"' || c == '/' || c == '[' || c == ']' || c == '?' || c == '=' || c == '{' || c == '}'
  }

  predicate TokenChar(c: char) {
    '!' <= c <= '~' && !Separator(c)
  }

  predicate AttrChar(c: char) {
    || Alphanumeric(c) || c == '!' || c == '#' || c == '$' || c == '&' || c == '+' || c == '-' || c == '.'
    || c == '^' || c == '_' || c == '`' || c == '|' || c == '~'
  }

  predicate CharsetChar(c: char) {
    || Alphanumeric(c) || c == '!' || c == '#' || c == '$' || c == '%' || c == '&' || c == '+' || c == '-'
    || c == '^' || c == '_' || c == '`' || c == '{' || c == '}' || c == '~'
  }

  predicate LanguageChar(c: char) {
    Alphanumeric(c) || c == '-'
  }

  predicate Space(c: char) {
    c == ' ' || c == '\t'
  }

  /** TEXT of RFC 2616, section 2.2: any octet but a control; a tab may stand in white space. */
  predicate TextChar(c: char) {
    c == '\t' || (' ' <= c && c as int < 0x100 && c as int != 0x7F)
  }

  /** What stands for itself between the quotes. */
  predicate PlainChar(c: char) {
    TextChar(c) && c != '"' && c != '\\'
  }

  /** How many leading characters are of a kind. */
  function Run(s: string, kind: char -> bool): (n: nat)
    ensures n <= |s|
  {
    if s != "" && kind(s[0]) then 1 + Run(s[1..], kind) else 0
  }

  function SkipSpace(s: string): (r: string)
    ensures |r| <= |s|
  {
    s[Run(s, Space)..]
  }

  function Skip(s: string, c: char): Option<string> {
    if s != "" && s[0] == c then Some(s[1..]) else None
  }

  /** The inside of a quoted-string, up to and over the closing quote. */
  function ParseQuoted(s: string): (r: Option<Parsed<string>>)
    ensures r.Some? ==> |r.value.rest| < |s|
  {
    if s == "" then None
    else if s[0] == '"' then Some(Parsed("", s[1..]))
    else if s[0] == '\\' then
      if |s| >= 2 && s[1] as int < 0x80 then
        var r := ParseQuoted(s[2..]);
        if r.None? then None else Some(Parsed([s[1]] + r.value.value, r.value.rest))
      else None
    else if TextChar(s[0]) then
      var r := ParseQuoted(s[1..]);
      if r.None? then None else Some(Parsed([s[0]] + r.value.value, r.value.rest))
    else None
  }

  function ParseValue(s: string): (r: Option<Parsed<Value>>)
    ensures r.Some? ==> |r.value.rest| <= |s|
  {
    if s != "" && s[0] == '"' then
      var q := ParseQuoted(s[1..]);
      if q.None? then None else Some(Parsed(Plain(q.value.value), q.value.rest))
    else
      var n := Run(s, TokenChar);
      if n == 0 then None else Some(Parsed(Plain(s[..n]), s[n..]))
  }

  function HexValue(c: char): Option<nat> {
    if '0' <= c <= '9' then Some((c - '0') as nat)
    else if 'A' <= c <= 'F' then Some(10 + (c - 'A') as nat)
    else if 'a' <= c <= 'f' then Some(10 + (c - 'a') as nat)
    else None
  }

  function ParseValueChars(s: string): (r: Option<Parsed<seq<Byte>>>)
    ensures r.Some? ==> |r.value.rest| <= |s|
  {
    if s != "" && s[0] == '%' then
      if |s| >= 3 && HexValue(s[1]).Some? && HexValue(s[2]).Some? then
        var r := ParseValueChars(s[3..]);
        if r.None? then None
        else Some(Parsed([HexValue(s[1]).value * 16 + HexValue(s[2]).value] + r.value.value, r.value.rest))
      else None
    else if s != "" && AttrChar(s[0]) then
      var r := ParseValueChars(s[1..]);
      if r.None? then None else Some(Parsed([s[0] as int] + r.value.value, r.value.rest))
    else Some(Parsed([], s))
  }

  function ParseExtended(s: string): (r: Option<Parsed<Value>>)
    ensures r.Some? ==> |r.value.rest| <= |s|
  {
    var n := Run(s, CharsetChar);
    var afterCharset := Skip(s[n..], '\'');
    if n == 0 || afterCharset.None? then None
    else
      var m := Run(afterCharset.value, LanguageChar);
      var afterLanguage := Skip(afterCharset.value[m..], '\'');
      if afterLanguage.None? then None
      else
        var r := ParseValueChars(afterLanguage.value);
        if r.None? then None
        else Some(Parsed(Extended(s[..n], afterCharset.value[..m], r.value.value), r.value.rest))
  }

  /** The name of a parameter and the "=" after it. */
  function ParseName(s: string): (r: Option<Parsed<string>>)
    ensures r.Some? ==> r.value.value != "" && |r.value.rest| < |s|
  {
    var n := Run(s, TokenChar);
    var afterName := Skip(SkipSpace(s[n..]), '=');
    if n == 0 || afterName.None? then None else Some(Parsed(s[..n], SkipSpace(afterName.value)))
  }

  /** A name that ends in "*" announces an extended value. */
  predicate Starred(name: string) {
    name != "" && name[|name| - 1] == '*'
  }

  function ParseParameter(s: string): (r: Option<Parsed<Parameter>>)
    ensures r.Some? ==> |r.value.rest| < |s|
  {
    var name := ParseName(s);
    if name.None? then None
    else
      var r := if Starred(name.value.value) then ParseExtended(name.value.rest) else ParseValue(name.value.rest);
      if r.None? then None else Some(Parsed(Parameter(name.value.value, r.value.value), r.value.rest))
  }

  function ParseParameters(s: string): Option<seq<Parameter>>
    decreases |s|
  {
    var t := SkipSpace(s);
    if t == "" then Some([])
    else
      var afterSemicolon := Skip(t, ';');
      if afterSemicolon.None? then None
      else
        var first := ParseParameter(SkipSpace(afterSemicolon.value));
        if first.None? then None
        else
          var others := ParseParameters(first.value.rest);
          if others.None? then None else Some([first.value.value] + others.value)
  }

  function ParseHeader(s: string): Option<Header> {
    var n := Run(s, TokenChar);
    var parameters := ParseParameters(s[n..]);
    if n == 0 || parameters.None? then None else Some(Header(s[..n], parameters.value))
  }

  // ----- pieces -----

  lemma {:induction false} RunOver(a: string, b: string, kind: char -> bool)
    requires forall i :: 0 <= i < |a| ==> kind(a[i])
    requires b == "" || !kind(b[0])
    ensures Run(a + b, kind) == |a|
    ensures (a + b)[..|a|] == a && (a + b)[|a|..] == b
  {
    if a == "" {
      assert a + b == b;
    } else {
      assert (a + b)[1..] == a[1..] + b;
      RunOver(a[1..], b, kind);
    }
  }

  lemma NoSpace(s: string)
    requires s == "" || !Space(s[0])
    ensures SkipSpace(s) == s
  {
  }

  lemma {:induction false} QuotedBack(text: string, rest: string)
    requires forall i :: 0 <= i < |text| ==> PlainChar(text[i])
    ensures ParseQuoted(text + "\"" + rest) == Some(Parsed(text, rest))
  {
    var s := text + "\"" + rest;
    if text == "" {
      assert s[1..] == rest;
    } else {
      assert s[1..] == text[1..] + "\"" + rest;
      QuotedBack(text[1..], rest);
      assert [text[0]] + text[1..] == text;
    }
  }

  /** A text with a character that does not stand for itself is not what comes back. */
  lemma {:induction false} QuotedSpoilt(text: string, rest: string)
    requires exists i :: 0 <= i < |text| && !PlainChar(text[i])
    ensures var r := ParseQuoted(text + "\"" + rest); r.Some? ==> r.value.value != text
  {
    var s := text + "\"" + rest;
    if PlainChar(text[0]) {
      assert s[1..] == text[1..] + "\"" + rest;
      assert exists i :: 0 <= i < |text[1..]| && !PlainChar(text[1..][i]) by {
        var i :| 0 <= i < |text| && !PlainChar(text[i]);
        assert text[1..][i - 1] == text[i];
      }
      QuotedSpoilt(text[1..], rest);
    } else if text[0] == '\\' {
      if ParseQuoted(s).Some? && ParseQuoted(s).value.value == text {
        assert s[1] == '\\';
        assert |text| > 1;
        assert s[2..] == text[2..] + "\"" + rest;
        assert ParseQuoted(s).value.value[1..] == ParseQuoted(s[2..]).value.value;
        assert text[1..] == seq(1, i => '\\') + text[2..];
        QuotedLags(1, text[2..], rest);
      }
    }
  }

  /** Once a backslash has been read as an escape, what comes back is behind what was put in for good. */
  lemma {:induction false} QuotedLags(d: nat, text: string, rest: string)
    requires d >= 1
    ensures var r := ParseQuoted(text + "\"" + rest); r.Some? ==> r.value.value != seq(d, i => '\\') + text
    decreases |text|
  {
    var s := text + "\"" + rest;
    var u := seq(d, i => '\\') + text;
    if ParseQuoted(s).Some? && ParseQuoted(s).value.value == u {
      assert u[0] == '\\';
      assert s[0] == '\\' && s[1] == '\\';
      assert |text| > 1;
      assert s[2..] == text[2..] + "\"" + rest;
      assert u[1..] == seq(d + 1, i => '\\') + text[2..];
      assert ParseQuoted(s).value.value[1..] == ParseQuoted(s[2..]).value.value;
      QuotedLags(d + 1, text[2..], rest);
    }
  }

  lemma QuoteByteBack(b: Byte, rest: string)
    ensures var q := QuoteByte(b);
      if q[0] == '%' then
        |q| == 3 && HexValue(q[1]).Some? && HexValue(q[2]).Some?
          && HexValue(q[1]).value * 16 + HexValue(q[2]).value == b
      else q == [b as char] && AttrChar(q[0])
  {
    HexBack(b / 16);
    HexBack(b % 16);
  }

  lemma HexBack(n: nat)
    requires n < 16
    ensures HexValue(HEX[n]) == Some(n)
  {
  }

  lemma {:induction false} QuoteBack(b: seq<Byte>)
    ensures ParseValueChars(Quote(b)) == Some(Parsed(b, ""))
  {
    if b != [] {
      QuoteBack(b[1..]);
      QuoteByteBack(b[0], "");
      var q := QuoteByte(b[0]);
      assert Quote(b) == q + Quote(b[1..]);
      assert Quote(b)[|q|..] == Quote(b[1..]);
      assert [b[0]] + b[1..] == b;
    }
  }

  ghost predicate Token(name: string) {
    name != "" && forall i :: 0 <= i < |name| ==> TokenChar(name[i])
  }

  lemma NameBack(name: string, value: string)
    requires Token(name) && value != "" && !Space(value[0])
    ensures ParseName(name + ("=" + value)) == Some(Parsed(name, value))
  {
    var rest := "=" + value;
    RunOver(name, rest, TokenChar);
    NoSpace(rest);
    assert rest[1..] == value;
    NoSpace(value);
    assert Skip(rest, '=') == Some(value);
  }

  /** A quoted parameter is read as far as its closing quote. */
  lemma QuotedParameter(name: string, text: string, rest: string)
    requires Token(name) && !Starred(name)
    ensures var q := ParseQuoted(text + "\"" + rest);
      ParseParameter(Quoted(name, text) + rest) ==
      if q.None? then None else Some(Parsed(Parameter(name, Plain(q.value.value)), q.value.rest))
  {
    var inside := text + "\"" + rest;
    QuotedIs(name, text, rest);
    NameBack(name, "\"" + inside);
    QuotedValue(inside);
  }

  lemma Regrouped(a: string, b: string, c: string)
    ensures a + b + c == a + (b + c)
  {
  }

  lemma QuotedIs(name: string, text: string, rest: string)
    ensures Quoted(name, text) + rest == name + ("=" + ("\"" + (text + "\"" + rest)))
  {
    var start, end := name + "=\"", "\"" + rest;
    Regrouped(start + text, "\"", rest);
    Regrouped(start, text, end);
    Regrouped(text, "\"", rest);
    Regrouped(name, "=\"", text + end);
    assert "=\"" == "=" + "\"";
    Regrouped("=", "\"", text + end);
  }

  lemma QuotedValue(inside: string)
    ensures var q := ParseQuoted(inside);
      ParseValue("\"" + inside) == if q.None? then None else Some(Parsed(Plain(q.value.value), q.value.rest))
  {
    assert ("\"" + inside)[1..] == inside;
  }

  lemma ExtendedValue(charset: string, octets: seq<Byte>)
    requires charset != "" && forall i :: 0 <= i < |charset| ==> CharsetChar(charset[i])
    ensures ParseExtended(charset + "''" + Quote(octets)) == Some(Parsed(Extended(charset, "", octets), ""))
  {
    var chars := Quote(octets);
    var once, twice := "'" + chars, "''" + chars;
    Regrouped(charset, "''", chars);
    RunOver(charset, twice, CharsetChar);
    assert twice[1..] == once;
    RunOver("", once, LanguageChar);
    assert "" + once == once;
    assert once[1..] == chars;
    QuoteBack(octets);
  }

  lemma ExtendedParameter(name: string, charset: string, octets: seq<Byte>)
    requires Token(name) && Starred(name)
    requires charset != "" && forall i :: 0 <= i < |charset| ==> CharsetChar(charset[i])
    ensures ParseParameter(ExtendedText(name, charset, octets)) ==
      Some(Parsed(Parameter(name, Extended(charset, "", octets)), ""))
  {
    var value := charset + "''" + Quote(octets);
    assert ExtendedText(name, charset, octets) == name + ("=" + value);
    assert value[0] == charset[0] && CharsetChar(charset[0]);
    NameBack(name, value);
    ExtendedValue(charset, octets);
  }

  /** What reading a list comes to: its first parameter, then whatever is left. */
  lemma ParametersSplit(all: seq<string>)
    requires all != [] && all[0] != "" && !Space(all[0][0])
    ensures var first := ParseParameter(all[0] + Tagged(all[1..]));
      ParseParameters(Tagged(all)) ==
      if first.None? || ParseParameters(first.value.rest).None? then None
      else Some([first.value.value] + ParseParameters(first.value.rest).value)
  {
    var text, rest := all[0], Tagged(all[1..]);
    var s := "; " + text + rest;
    assert s[1..] == " " + (text + rest);
    assert (s[1..])[1..] == text + rest;
    NoSpace(s);
    NoSpace(text + rest);
    assert Run(s[1..], Space) == 1;
  }

  // ----- the results -----

  /** The parameters a header for this path is meant to carry. */
  function Intended(path: Text, octets: seq<Byte>, field: Option<string>): Header {
    var file := [Parameter(FILENAME, Plain(Fallback(path))),
                 Parameter(FILENAME_STAR, Extended(UTF_8, "", octets))];
    Header(ATTACHMENT, if field.Some? then [Parameter(NAME, Plain(field.value))] + file else file)
  }

  ghost predicate PlainField(field: Option<string>) {
    field.Some? ==> forall i :: 0 <= i < |field.value| ==> PlainChar(field.value[i])
  }

  lemma LastParameter(all: seq<string>, p: Parameter)
    requires |all| == 1 && all[0] != "" && !Space(all[0][0])
    requires ParseParameter(all[0]) == Some(Parsed(p, ""))
    ensures ParseParameters(Tagged(all)) == Some([p])
  {
    ParametersSplit(all);
    assert all[0] + Tagged(all[1..]) == all[0];
    assert [p] + [] == [p];
  }

  /** A quoted parameter in front of a list comes back if it needs no escaping. */
  lemma PlainParameter(all: seq<string>, name: string, text: string)
    requires Token(name) && !Starred(name)
    requires forall i :: 0 <= i < |text| ==> PlainChar(text[i])
    requires all != [] && all[0] == Quoted(name, text)
    requires ParseParameters(Tagged(all[1..])).Some?
    ensures ParseParameters(Tagged(all)) ==
      Some([Parameter(name, Plain(text))] + ParseParameters(Tagged(all[1..])).value)
  {
    assert all[0][0] == name[0] && TokenChar(name[0]);
    ParametersSplit(all);
    QuotedParameter(name, text, Tagged(all[1..]));
    QuotedBack(text, Tagged(all[1..]));
  }

  /** And if it does, something else does. */
  lemma SpoiltParameter(all: seq<string>, name: string, text: string)
    requires Token(name) && !Starred(name)
    requires exists i :: 0 <= i < |text| && !PlainChar(text[i])
    requires all != [] && all[0] == Quoted(name, text)
    ensures var r := ParseParameters(Tagged(all));
      r.Some? ==> r.value != [] && r.value[0] != Parameter(name, Plain(text))
  {
    assert all[0][0] == name[0] && TokenChar(name[0]);
    ParametersSplit(all);
    QuotedParameter(name, text, Tagged(all[1..]));
    QuotedSpoilt(text, Tagged(all[1..]));
  }

  lemma FileNameStar(octets: seq<Byte>)
    ensures var text := ExtendedText(FILENAME_STAR, UTF_8, octets);
      text != "" && !Space(text[0])
      && ParseParameter(text) == Some(Parsed(Parameter(FILENAME_STAR, Extended(UTF_8, "", octets)), ""))
  {
    ExtendedParameter(FILENAME_STAR, UTF_8, octets);
  }

  lemma LettersAreTokens(name: string)
    requires name != "" && forall i :: 0 <= i < |name| ==> 'a' <= name[i] <= 'z'
    ensures Token(name) && !Starred(name)
  {
    forall i | 0 <= i < |name| ensures TokenChar(name[i]) {
      LetterIsToken(name[i]);
    }
  }

  lemma LetterIsToken(c: char)
    requires 'a' <= c <= 'z'
    ensures TokenChar(c)
  {
  }

  lemma Words()
    ensures Token(ATTACHMENT)
    ensures Token(NAME) && !Starred(NAME)
    ensures Token(FILENAME) && !Starred(FILENAME)
  {
    LettersAreTokens(ATTACHMENT);
    LettersAreTokens(NAME);
    LettersAreTokens(FILENAME);
  }

  lemma PlainThenLast(all: seq<string>, name: string, text: string, last: Parameter)
    requires Token(name) && !Starred(name) && forall i :: 0 <= i < |text| ==> PlainChar(text[i])
    requires |all| == 2 && all[0] == Quoted(name, text) && ParseParameters(Tagged(all[1..])) == Some([last])
    ensures ParseParameters(Tagged(all)) == Some([Parameter(name, Plain(text)), last])
  {
    PlainParameter(all, name, text);
    OneAndOne(Parameter(name, Plain(text)), last);
  }

  lemma OneAndOne<T>(a: T, b: T)
    ensures [a] + [b] == [a, b]
  {
  }

  lemma FileParameters(all: seq<string>, fallback: string, star: Parameter)
    requires |all| == 2 && all[0] == Quoted(FILENAME, fallback) && all[1] != "" && !Space(all[1][0])
    requires ParseParameter(all[1]) == Some(Parsed(star, ""))
    requires forall i :: 0 <= i < |fallback| ==> PlainChar(fallback[i])
    ensures ParseParameters(Tagged(all)) == Some([Parameter(FILENAME, Plain(fallback)), star])
  {
    Words();
    LastParameter(all[1..], star);
    PlainThenLast(all, FILENAME, fallback, star);
  }

  lemma HeaderOf(kind: string, parameters: seq<string>)
    requires Token(kind)
    ensures var r := ParseParameters(Tagged(parameters));
      ParseHeader(kind + Tagged(parameters)) == if r.None? then None else Some(Header(kind, r.value))
  {
    RunOver(kind, Tagged(parameters), TokenChar);
  }

  /**
    Printing then parsing gives the intended parameters and no others, for every path that can be
    printed at all and whatever it is called, exactly when the field name needs no escaping.
   */
  lemma ParseOfPrint(path: Text, field: Option<string>)
    ensures ContentDisposition(path, field).Some? <==> Scalars(path)
    ensures Scalars(path) ==>
      (PlainField(field) <==>
        ParseHeader(ContentDisposition(path, field).value) == Some(Intended(path, Encode(path).value, field)))
  {
    DecodeOfEncode(path);
    if Scalars(path) {
      var octets := Encode(path).value;
      var all := Parameters(path, octets, field);
      Words();
      HeaderOf(ATTACHMENT, all);
      IntendedParameters(path, octets, field, all);
    }
  }

  predicate Printable(c: char) {
    ' ' <= c <= '~'
  }

  lemma FallbackIsPlain(path: Text)
    ensures forall i :: 0 <= i < |Fallback(path)| ==> Printable(Fallback(path)[i]) && PlainChar(Fallback(path)[i])
  {
  }

  lemma IntendedParameters(path: Text, octets: seq<Byte>, field: Option<string>, all: seq<string>)
    requires all == Parameters(path, octets, field)
    ensures PlainField(field) <==> ParseParameters(Tagged(all)) == Some(Intended(path, octets, field).parameters)
  {
    FileNameStar(octets);
    FallbackIsPlain(path);
    var star := Parameter(FILENAME_STAR, Extended(UTF_8, "", octets));
    if field.None? {
      FileParameters(all, Fallback(path), star);
    } else {
      FileParameters(all[1..], Fallback(path), star);
      NamedParameters(all, field.value, [Parameter(FILENAME, Plain(Fallback(path))), star]);
    }
  }

  lemma NamedParameters(all: seq<string>, field: string, others: seq<Parameter>)
    requires all != [] && all[0] == Quoted(NAME, field)
    requires ParseParameters(Tagged(all[1..])) == Some(others)
    ensures PlainField(Some(field)) <==>
      ParseParameters(Tagged(all)) == Some([Parameter(NAME, Plain(field))] + others)
  {
    Words();
    if PlainField(Some(field)) {
      PlainParameter(all, NAME, field);
    } else {
      SpoiltParameter(all, NAME, field);
    }
  }

  /** What a client gets out of the header: the file name it decodes from `filename*`. */
  function DecodedName(h: Header): Option<Text> {
    if |h.parameters| == 0 then None
    else
      var p := h.parameters[|h.parameters| - 1];
      if p.name == FILENAME_STAR && p.value.Extended? && p.value.charset == UTF_8 then Decode(p.value.octets) else None
  }

  lemma ClientGetsThePath(path: Text, field: Option<string>)
    requires Scalars(path) && PlainField(field)
    ensures var h := ContentDisposition(path, field);
      h.Some? && ParseHeader(h.value).Some? && DecodedName(ParseHeader(h.value).value) == Some(path)
  {
    ParseOfPrint(path, field);
    DecodeOfEncode(path);
  }

  /** What the header holds, in so many words. */
  ghost predicate Holds(h: Header, path: Text, field: Option<string>) {
    var n := |h.parameters|;
    && h.kind == "attachment" && n == (if field.Some? then 3 else 2)
    && (field.Some? ==> h.parameters[0] == Parameter("name", Plain(field.value)))
    && h.parameters[n - 2].name == "filename" && h.parameters[n - 2].value.Plain?
    && Flattens(path, h.parameters[n - 2].value.text)
    && h.parameters[n - 1].name == "filename*" && h.parameters[n - 1].value.Extended?
    && h.parameters[n - 1].value.charset == "UTF-8" && h.parameters[n - 1].value.language == ""
    && Decode(h.parameters[n - 1].value.octets) == Some(path)
  }

  /**
    What a client finds in the header: the field name, the exact path, and a plain file name, which is
    "attachment" if there is no path, and otherwise the path with every character but letters, digits, ".",
    "_" and "-" replaced by "_".
   */
  lemma ClientFinds(path: Text, field: Option<string>)
    requires Scalars(path) && PlainField(field)
    ensures var h := ContentDisposition(path, field);
      h.Some? && ParseHeader(h.value).Some? && Holds(ParseHeader(h.value).value, path, field)
  {
    ParseOfPrint(path, field);
    DecodeOfEncode(path);
    IntendedHolds(path, Encode(path).value, field);
  }

  lemma IntendedHolds(path: Text, octets: seq<Byte>, field: Option<string>)
    requires Decode(octets) == Some(path)
    ensures Holds(Intended(path, octets, field), path, field)
  {
    FallbackFlattens(path);
  }

  lemma FallbackFlattens(path: Text)
    ensures Flattens(path, Fallback(path))
  {
  }

  ghost predicate Flattens(path: Text, text: string) {
    if path == [] then text == "attachment"
    else
      && |text| == |path|
      && forall i :: 0 <= i < |path| ==>
           var c: int := path[i];
           if 'A' as int <= c <= 'Z' as int || 'a' as int <= c <= 'z' as int || '0' as int <= c <= '9' as int
              || c == '.' as int || c == '_' as int || c == '-' as int
           then text[i] as int == c
           else text[i] == '_'
  }

  /** Octet by octet: unreserved characters stand for themselves, anything else is escaped in upper-case hex. */
  lemma {:induction false} QuoteIsBytewise(b: seq<Byte>, b': seq<Byte>)
    ensures Quote(b + b') == Quote(b) + Quote(b')
  {
    if b == [] {
      assert b + b' == b';
    } else {
      assert (b + b')[1..] == b[1..] + b';
      QuoteIsBytewise(b[1..], b');
    }
  }

  lemma QuotedOctet(b: Byte)
    ensures var q := Quote([b]);
      if 'A' as int <= b <= 'Z' as int || 'a' as int <= b <= 'z' as int || '0' as int <= b <= '9' as int
         || b == '.' as int || b == '_' as int || b == '-' as int || b == '~' as int
      then |q| == 1 && q[0] as int == b
      else |q| == 3 && q[0] == '%' && UpperHex(q[1], b / 16) && UpperHex(q[2], b % 16)
  {
    assert Quote([b]) == QuoteByte(b) + Quote([b][1..]);
    assert Quote([]) == "";
  }

  ghost predicate UpperHex(c: char, n: nat) {
    if n < 10 then c as int == '0' as int + n else n < 16 && c as int == 'A' as int + n - 10
  }

  /** Different paths, or different field names, never share a header. */
  lemma PrintIsInjective(path: Text, field: Option<string>, path': Text, field': Option<string>)
    requires Scalars(path) && PlainField(field) && Scalars(path') && PlainField(field')
    requires ContentDisposition(path, field) == ContentDisposition(path', field')
    ensures path == path' && field == field'
  {
    ClientGetsThePath(path, field);
    ClientGetsThePath(path', field');
    ParseOfPrint(path, field);
    ParseOfPrint(path', field');
    var h, h' := Intended(path, Encode(path).value, field), Intended(path', Encode(path').value, field');
    assert h.parameters[0] == h'.parameters[0];
  }

  lemma {:induction false} QuoteIsPrintable(b: seq<Byte>)
    ensures AllPrintable(Quote(b))
  {
    if b != [] {
      QuoteIsPrintable(b[1..]);
    }
  }

  ghost predicate AllPrintable(s: string) {
    forall i :: 0 <= i < |s| ==> Printable(s[i])
  }

  lemma {:induction false} TaggedIsPrintable(parameters: seq<string>)
    requires forall i :: 0 <= i < |parameters| ==> AllPrintable(parameters[i])
    ensures AllPrintable(Tagged(parameters))
  {
    if parameters != [] {
      TaggedIsPrintable(parameters[1..]);
    }
  }

  lemma JoinedIsPrintable(a: string, b: string)
    requires AllPrintable(a) && AllPrintable(b)
    ensures AllPrintable(a + b)
  {
  }

  lemma QuotedIsPrintable(name: string, text: string)
    requires AllPrintable(name) && AllPrintable(text)
    ensures AllPrintable(Quoted(name, text))
  {
    JoinedIsPrintable(name, "=\"");
    JoinedIsPrintable(name + "=\"", text);
    JoinedIsPrintable(name + "=\"" + text, "\"");
  }

  lemma ExtendedIsPrintable(name: string, charset: string, octets: seq<Byte>)
    requires AllPrintable(name) && AllPrintable(charset)
    ensures AllPrintable(ExtendedText(name, charset, octets))
  {
    QuoteIsPrintable(octets);
    JoinedIsPrintable(name, "=");
    JoinedIsPrintable(name + "=", charset);
    JoinedIsPrintable(name + "=" + charset, "''");
    JoinedIsPrintable(name + "=" + charset + "''", Quote(octets));
  }

  lemma TokensArePrintable(name: string)
    requires Token(name)
    ensures AllPrintable(name)
  {
  }

  lemma ParametersArePrintable(path: Text, octets: seq<Byte>, field: Option<string>)
    requires field.Some? ==> AllPrintable(field.value)
    ensures forall p <- Parameters(path, octets, field) :: AllPrintable(p)
  {
    Words();
    TokensArePrintable(NAME);
    TokensArePrintable(FILENAME);
    FallbackIsPlain(path);
    QuotedIsPrintable(FILENAME, Fallback(path));
    ExtendedIsPrintable(FILENAME_STAR, UTF_8, octets);
    if field.Some? {
      QuotedIsPrintable(NAME, field.value);
    }
  }

  /** Nothing a path holds can end the header line: all of it is printable ASCII. */
  lemma HeaderIsOneLine(path: Text, field: Option<string>)
    requires Scalars(path) && (field.Some? ==> AllPrintable(field.value))
    ensures var h := ContentDisposition(path, field); h.Some? && AllPrintable(h.value)
  {
    DecodeOfEncode(path);
    var all := Parameters(path, Encode(path).value, field);
    ParametersArePrintable(path, Encode(path).value, field);
    TaggedIsPrintable(all);
    Words();
    TokensArePrintable(ATTACHMENT);
    JoinedIsPrintable(ATTACHMENT, Tagged(all));
  }
}
