/** Three ways text is escaped for another reader, and the readers. */
module Escaping {
  import opened OpsTypes

  // ----- replacing characters

  function FlatMap(s: string, f: char -> string): string {
    if s == [] then [] else f(s[0]) + FlatMap(s[1..], f)
  }

  function Swap(c: char, put: string): char -> string {
    x => if x == c then put else [x]
  }

  function ReplaceAll(s: string, c: char, put: string): string {
    FlatMap(s, Swap(c, put))
  }

  lemma {:induction false} FlatMapJoin(one: string, other: string, f: char -> string)
    ensures FlatMap(one + other, f) == FlatMap(one, f) + FlatMap(other, f)
  {
    if one == [] {
      assert one + other == other;
    } else {
      FlatMapJoin(one[1..], other, f);
      assert (one + other)[1..] == one[1..] + other && (one + other)[0] == one[0];
      var head, middle, tail := f(one[0]), FlatMap(one[1..], f), FlatMap(other, f);
      assert head + (middle + tail) == (head + middle) + tail;
    }
  }

  /** A second pass over the result of a first is one pass with the second run over each replacement. */
  lemma {:induction false} FlatMapTwice(s: string, f: char -> string, g: char -> string)
    ensures FlatMap(FlatMap(s, f), g) == FlatMap(s, x => FlatMap(f(x), g))
  {
    if s != [] {
      FlatMapTwice(s[1..], f, g);
      FlatMapJoin(f(s[0]), FlatMap(s[1..], f), g);
    }
  }

  lemma {:induction false} FlatMapSame(s: string, f: char -> string, g: char -> string)
    requires forall x :: f(x) == g(x)
    ensures FlatMap(s, f) == FlatMap(s, g)
  {
    if s != [] {
      FlatMapSame(s[1..], f, g);
    }
  }

  // ----- quoting for a POSIX shell

  function ShellQuote(value: string): string {
    "'" + ReplaceAll(value, '\'', "'\\''") + "'"
  }

  /** Where a shell reading a command line is: between words, in a word, or inside quotes. */
  datatype Mode = Between | InWord | InSingle | InDouble

  /** The words read so far and the one being read, or the fact that the text is more than plain words. */
  datatype Reading = Reading(mode: Mode, words: seq<string>, word: string) | NotPlain

  predicate Blank(c: char) {
    c == ' ' || c == '\t' || c == '\n'
  }

  /** Characters that mean something to the shell when they are not quoted. */
  predicate Special(c: char) {
    c in "|&;<>()$`*?[#~=%"
  }

  /** Reads on from a state, by sections 2.2.1 to 2.2.3 of the POSIX Shell Command Language. */
  function Read(r: Reading, text: string): Reading
    decreases |text|
  {
    if r.NotPlain? || text == [] then r
    else
      var c, rest := text[0], text[1..];
      match r.mode
      case InSingle =>
        if c == '\'' then Read(r.(mode := InWord), rest) else Read(r.(word := r.word + [c]), rest)
      case InDouble =>
        if c == '"' then Read(r.(mode := InWord), rest)
        else if c == '$' || c == '`' then NotPlain
        else if c == '\\' && rest != [] && rest[0] in "$`\"\\" then Read(r.(word := r.word + [rest[0]]), rest[1..])
        else if c == '\\' && rest != [] && rest[0] == '\n' then Read(r, rest[1..])
        else Read(r.(word := r.word + [c]), rest)
      case _ =>
        if c == '\'' then Read(r.(mode := InSingle), rest)
        else if c == '"' then Read(r.(mode := InDouble), rest)
        else if c == '\\' && rest != [] && rest[0] == '\n' then Read(r, rest[1..])
        else if c == '\\' && rest != [] then Read(r.(mode := InWord, word := r.word + [rest[0]]), rest[1..])
        else if Blank(c) then
          Read(if r.mode == InWord then Reading(Between, r.words + [r.word], "") else r, rest)
        else if Special(c) || c == '\\' then NotPlain
        else Read(r.(mode := InWord, word := r.word + [c]), rest)
  }

  function Words(text: string): Option<seq<string>> {
    match Read(Reading(Between, [], ""), text)
    case Reading(Between, words, _) => Some(words)
    case Reading(InWord, words, word) => Some(words + [word])
    case _ => None
  }

  lemma ClosesQuote(words: seq<string>, word: string, text: string)
    ensures Read(Reading(InSingle, words, word), "'" + text) == Read(Reading(InWord, words, word), text)
    ensures Read(Reading(InWord, words, word), "'" + text) == Read(Reading(InSingle, words, word), text)
  {
  }

  lemma EscapesQuote(words: seq<string>, word: string, text: string)
    ensures Read(Reading(InWord, words, word), "\\'" + text) == Read(Reading(InWord, words, word + "'"), text)
  {
  }

  lemma KeepsCharacter(words: seq<string>, word: string, c: char, text: string)
    requires c != '\''
    ensures Read(Reading(InSingle, words, word), [c] + text) == Read(Reading(InSingle, words, word + [c]), text)
  {
    assert ([c] + text)[1..] == text;
  }

  lemma {:induction false} ReadsQuoted(words: seq<string>, word: string, value: string, rest: string)
    ensures Read(Reading(InSingle, words, word), ReplaceAll(value, '\'', "'\\''") + "'" + rest)
         == Read(Reading(InWord, words, word + value), rest)
    decreases |value|
  {
    hide Read;
    var escape := Swap('\'', "'\\''");
    var text := FlatMap(value, escape) + "'" + rest;
    if value == [] {
      assert text == "'" + rest && word + value == word;
      ClosesQuote(words, word, rest);
    } else {
      var more := FlatMap(value[1..], escape) + "'" + rest;
      ReadsQuoted(words, word + [value[0]], value[1..], rest);
      assert word + [value[0]] + value[1..] == word + value;
      if value[0] == '\'' {
        assert text == "'" + ("\\'" + ("'" + more));
        ClosesQuote(words, word, "\\'" + ("'" + more));
        EscapesQuote(words, word, "'" + more);
        ClosesQuote(words, word + "'", more);
      } else {
        assert text == [value[0]] + more;
        KeepsCharacter(words, word, value[0], more);
      }
    }
  }

  /** Wherever a word may start or go on, a quoted value adds exactly itself to the word. */
  lemma QuotedAddsItself(words: seq<string>, word: string, value: string, rest: string)
    ensures Read(Reading(InWord, words, word), ShellQuote(value) + rest)
         == Read(Reading(InWord, words, word + value), rest)
    ensures Read(Reading(Between, words, ""), ShellQuote(value) + rest) == Read(Reading(InWord, words, value), rest)
  {
    var text := ShellQuote(value) + rest;
    assert text[0] == '\'' && text[1..] == ReplaceAll(value, '\'', "'\\''") + "'" + rest;
    ReadsQuoted(words, word, value, rest);
    ReadsQuoted(words, "", value, rest);
    assert "" + value == value;
  }

  /** A shell reads a quoted value back as one word, the value itself. */
  lemma ShellReadsBack(value: string)
    ensures Words(ShellQuote(value)) == Some([value])
  {
    QuotedAddsItself([], "", value, "");
    assert ShellQuote(value) + "" == ShellQuote(value);
    assert Read(Reading(InWord, [], value), "") == Reading(InWord, [], value);
    assert [] + [value] == [value];
  }

  // ----- AppleScript string literals

  function AppleScriptString(value: string): string {
    "\"" + ReplaceAll(ReplaceAll(value, '\\', "\\\\"), '"', "\\\"") + "\""
  }

  function AppleEscape(c: char): string {
    if c == '\\' then "\\\\" else if c == '"' then "\\\"" else [c]
  }

  /** Doubling backslashes and then escaping quotes comes to the same as doing both at once. */
  lemma AppleOnePass(value: string)
    ensures AppleScriptString(value) == "\"" + FlatMap(value, AppleEscape) + "\""
  {
    var first, second := Swap('\\', "\\\\"), Swap('"', "\\\"");
    FlatMapTwice(value, first, second);
    forall x: char ensures FlatMap(first(x), second) == AppleEscape(x) {
      if x == '\\' {
        assert "\\\\"[1..] == "\\" && "\\"[1..] == "";
      } else {
        assert [x][1..] == [];
      }
    }
    FlatMapSame(value, x => FlatMap(first(x), second), AppleEscape);
  }

  /** The value of the literal that the text after an opening quote starts, and where it ends. */
  function ReadLiteral(text: string, value: string): Option<(string, string)> {
    if text == [] then None
    else if text[0] == '"' then Some((value, text[1..]))
    else if text[0] != '\\' then ReadLiteral(text[1..], value + [text[0]])
    else if |text| < 2 then None
    else if text[1] == 'n' then ReadLiteral(text[2..], value + "\n")
    else if text[1] == 'r' then ReadLiteral(text[2..], value + "\r")
    else if text[1] == 't' then ReadLiteral(text[2..], value + "\t")
    else if text[1] == '"' || text[1] == '\\' then ReadLiteral(text[2..], value + [text[1]])
    else None
  }

  lemma {:induction false} ReadsEscaped(before: string, value: string, rest: string)
    ensures ReadLiteral(FlatMap(value, AppleEscape) + "\"" + rest, before) == Some((before + value, rest))
    decreases |value|
  {
    var text := FlatMap(value, AppleEscape) + "\"" + rest;
    if value == [] {
      assert text[1..] == rest && before + value == before;
    } else {
      var more := FlatMap(value[1..], AppleEscape) + "\"" + rest;
      ReadsEscaped(before + [value[0]], value[1..], rest);
      assert before + [value[0]] + value[1..] == before + value;
      assert text == AppleEscape(value[0]) + more;
      if value[0] == '\\' || value[0] == '"' {
        assert text[2..] == more;
      } else {
        assert text[1..] == more;
      }
    }
  }

  /** AppleScript reads the literal back as the value, and nothing after it is taken in. */
  lemma AppleScriptReadsBack(value: string, rest: string)
    ensures AppleScriptString(value) + rest != [] && (AppleScriptString(value) + rest)[0] == '"'
    ensures ReadLiteral((AppleScriptString(value) + rest)[1..], "") == Some((value, rest))
  {
    AppleOnePass(value);
    ReadsEscaped("", value, rest);
    assert (AppleScriptString(value) + rest)[1..] == FlatMap(value, AppleEscape) + "\"" + rest;
    assert "" + value == value;
  }

  // ----- XML text

  function EscapeXml(value: string): string {
    ReplaceAll(ReplaceAll(ReplaceAll(ReplaceAll(ReplaceAll(value,
      '&', "&amp;"), '<', "&lt;"), '>', "&gt;"), '"', "&quot;"), '\'', "&apos;")
  }

  function XmlEscape(c: char): string {
    if c == '&' then "&amp;" else if c == '<' then "&lt;" else if c == '>' then "&gt;"
    else if c == '"' then "&quot;" else if c == '\'' then "&apos;" else [c]
  }

  /** One escape so far, with one more pass over it. */
  lemma OneMorePass(s: string, f: char -> string, c: char, put: string, g: char -> string)
    requires forall x :: g(x) == ReplaceAll(f(x), c, put)
    ensures ReplaceAll(FlatMap(s, f), c, put) == FlatMap(s, g)
  {
    FlatMapTwice(s, f, Swap(c, put));
    FlatMapSame(s, x => FlatMap(f(x), Swap(c, put)), g);
  }

  function XmlUpTo(passes: nat): char -> string {
    c => if (c == '&' && passes >= 1) || (c == '<' && passes >= 2) || (c == '>' && passes >= 3)
            || (c == '"' && passes >= 4) || (c == '\'' && passes >= 5) then XmlEscape(c) else [c]
  }

  lemma ReplaceOne(x: char, c: char, put: string)
    ensures ReplaceAll([x], c, put) == if x == c then put else [x]
  {
    var swap := Swap(c, put);
    assert [x][1..] == [] && FlatMap([x], swap) == swap(x) + [] == swap(x);
  }

  lemma {:induction false} ReplaceNothing(s: string, c: char, put: string)
    requires c !in s
    ensures ReplaceAll(s, c, put) == s
  {
    if s != [] {
      ReplaceNothing(s[1..], c, put);
    }
  }

  /** No entity contains the character that a later pass replaces. */
  lemma NextPass(s: string, passes: nat, c: char)
    requires passes < 5 && c == "&<>\"'"[passes]
    ensures ReplaceAll(FlatMap(s, XmlUpTo(passes)), c, XmlEscape(c)) == FlatMap(s, XmlUpTo(passes + 1))
  {
    forall x: char ensures XmlUpTo(passes + 1)(x) == ReplaceAll(XmlUpTo(passes)(x), c, XmlEscape(c)) {
      if XmlUpTo(passes)(x) == [x] {
        ReplaceOne(x, c, XmlEscape(c));
      } else {
        ReplaceNothing(XmlEscape(x), c, XmlEscape(c));
      }
    }
    OneMorePass(s, XmlUpTo(passes), c, XmlEscape(c), XmlUpTo(passes + 1));
  }

  lemma {:induction false} NoPass(s: string)
    ensures FlatMap(s, XmlUpTo(0)) == s
  {
    if s != [] {
      NoPass(s[1..]);
    }
  }

  /** The five passes, in their order, come to the same as escaping each character once. */
  lemma XmlOnePass(value: string)
    ensures EscapeXml(value) == FlatMap(value, XmlEscape)
  {
    hide FlatMap;
    NoPass(value);
    NextPass(value, 0, '&');
    NextPass(value, 1, '<');
    NextPass(value, 2, '>');
    NextPass(value, 3, '"');
    NextPass(value, 4, '\'');
    FlatMapSame(value, XmlUpTo(5), XmlEscape);
  }

  // ----- decoding entities

  function FirstSemicolon(text: string): Option<nat> {
    if text == [] then None
    else if text[0] == ';' then Some(0)
    else
      match FirstSemicolon(text[1..])
      case Some(n) => Some(n + 1)
      case None => None
  }

  function Lower(c: char): char {
    if 'A' <= c <= 'Z' then (c as int + 32) as char else c
  }

  function LowerAll(text: string): string {
    seq(|text|, i requires 0 <= i < |text| => Lower(text[i]))
  }

  predicate Digit(c: char) {
    '0' <= c <= '9'
  }

  predicate HexDigit(c: char) {
    Digit(c) || 'a' <= c <= 'f'
  }

  /** What may stand between the ampersand and the semicolon, in lower case. */
  predicate EntityBody(body: string) {
    || body in ["lt", "gt", "amp", "quot", "apos"]
    || (|body| > 2 && body[..2] == "#x" && forall i :: 2 <= i < |body| ==> HexDigit(body[i]))
    || (|body| > 1 && body[0] == '#' && forall i :: 1 <= i < |body| ==> Digit(body[i]))
  }

  function ParseDigits(digits: string, radix: nat): nat {
    if digits == [] then 0
    else
      var c := digits[|digits| - 1];
      ParseDigits(digits[..|digits| - 1], radix) * radix
        + (if Digit(c) then c as int - '0' as int else if HexDigit(c) then c as int - 'a' as int + 10 else 0)
  }

  /** Controls, soft hyphen, direction marks and other characters that are not seen. */
  predicate Invisible(point: nat) {
    || point <= 0x8 || point == 0xb || point == 0xc || 0xe <= point <= 0x1f || 0x7f <= point <= 0x9f
    || point == 0xad || point == 0x61c || point == 0x200b || point == 0x200e || point == 0x200f
    || 0x202a <= point <= 0x202e || point == 0x2060 || 0x2066 <= point <= 0x2069 || point == 0xfeff
  }

  /** The text that an entity stands for; `entity` is the whole of it, as written. */
  function DecodedEntity(entity: string, body: string): string
    requires EntityBody(body)
  {
    match body
    case "lt" => "<"
    case "gt" => ">"
    case "amp" => "&"
    case "quot" => "\""
    case "apos" => "'"
    case _ =>
      var hexadecimal := |body| > 2 && body[..2] == "#x";
      var point := ParseDigits(body[if hexadecimal then 2 else 1..], if hexadecimal then 16 else 10);
      if point > 0x10ffff || 0xd800 <= point <= 0xdfff then entity
      else if Invisible(point) then "" else [point as char]
  }

  function DecodeEntities(text: string): string {
    if text == [] then []
    else if text[0] != '&' then [text[0]] + DecodeEntities(text[1..])
    else
      match FirstSemicolon(text[1..])
      case Some(n) =>
        if n < |text| - 1 && EntityBody(LowerAll(text[1..n + 1])) then
          DecodedEntity(text[..n + 2], LowerAll(text[1..n + 1])) + DecodeEntities(text[n + 2..])
        else "&" + DecodeEntities(text[1..])
      case None => "&" + DecodeEntities(text[1..])
  }

  lemma {:induction false} SemicolonAfter(body: string, rest: string)
    requires ';' !in body
    ensures FirstSemicolon(body + ";" + rest) == Some(|body|)
  {
    var text := body + ";" + rest;
    if body != [] {
      SemicolonAfter(body[1..], rest);
      assert text[1..] == body[1..] + ";" + rest;
    }
  }

  lemma DecodesNamed(body: string, rest: string)
    requires body in ["lt", "gt", "amp", "quot", "apos"]
    ensures DecodeEntities("&" + body + ";" + rest) == DecodedEntity("&" + body + ";", body) + DecodeEntities(rest)
  {
    var text := "&" + body + ";" + rest;
    assert text[1..] == body + ";" + rest;
    SemicolonAfter(body, rest);
    assert text[1..|body| + 1] == body && text[..|body| + 2] == "&" + body + ";" && text[|body| + 2..] == rest;
    assert LowerAll(body) == body;
  }

  lemma DecodesPlain(c: char, rest: string)
    requires c != '&'
    ensures DecodeEntities([c] + rest) == [c] + DecodeEntities(rest)
  {
    assert ([c] + rest)[1..] == rest;
  }

  lemma DecodesEscaped(c: char, rest: string)
    ensures DecodeEntities(XmlEscape(c) + rest) == [c] + DecodeEntities(rest)
  {
    hide DecodeEntities;
    if c == '&' {
      assert "&amp;" + rest == "&" + "amp" + ";" + rest;
      DecodesNamed("amp", rest);
    } else if c == '<' {
      assert "&lt;" + rest == "&" + "lt" + ";" + rest;
      DecodesNamed("lt", rest);
    } else if c == '>' {
      assert "&gt;" + rest == "&" + "gt" + ";" + rest;
      DecodesNamed("gt", rest);
    } else if c == '"' {
      assert "&quot;" + rest == "&" + "quot" + ";" + rest;
      DecodesNamed("quot", rest);
    } else if c == '\'' {
      assert "&apos;" + rest == "&" + "apos" + ";" + rest;
      DecodesNamed("apos", rest);
    } else {
      DecodesPlain(c, rest);
    }
  }

  lemma {:induction false} DecodesOnePass(value: string)
    ensures DecodeEntities(FlatMap(value, XmlEscape)) == value
  {
    if value != [] {
      DecodesOnePass(value[1..]);
      DecodesEscaped(value[0], FlatMap(value[1..], XmlEscape));
    }
  }

  /** Decoding undoes escaping, whatever the text: entities already in it come back as they were. */
  lemma DecodeUndoesEscape(value: string)
    ensures DecodeEntities(EscapeXml(value)) == value
  {
    XmlOnePass(value);
    DecodesOnePass(value);
  }

  predicate Markup(c: char) {
    c in "<>\"'"
  }

  lemma {:induction false} OnePassHasNoMarkup(value: string, c: char)
    requires c in FlatMap(value, XmlEscape)
    ensures !Markup(c)
  {
    if c !in XmlEscape(value[0]) {
      OnePassHasNoMarkup(value[1..], c);
    }
  }

  /** One of the five entities stands at the beginning of the text. */
  predicate BeginsEntity(text: string) {
    "&amp;" <= text || "&lt;" <= text || "&gt;" <= text || "&quot;" <= text || "&apos;" <= text
  }

  lemma EscapedCharacter(c: char, rest: string, n: nat)
    requires n < |XmlEscape(c)| && XmlEscape(c)[n] == '&'
    ensures n == 0 && BeginsEntity(XmlEscape(c) + rest)
  {
    assert XmlEscape(c) <= XmlEscape(c) + rest;
  }

  lemma {:induction false} AmpersandsOfOnePass(value: string, n: nat)
    requires n < |FlatMap(value, XmlEscape)| && FlatMap(value, XmlEscape)[n] == '&'
    ensures BeginsEntity(FlatMap(value, XmlEscape)[n..])
  {
    var head, rest := XmlEscape(value[0]), FlatMap(value[1..], XmlEscape);
    assert FlatMap(value, XmlEscape) == head + rest;
    if n < |head| {
      EscapedCharacter(value[0], rest, n);
    } else {
      AmpersandsOfOnePass(value[1..], n - |head|);
      assert (head + rest)[n..] == rest[n - |head|..];
    }
  }

  /** Escaped text has no character of markup left in it, and every ampersand in it begins one of the five entities. */
  lemma EscapedHasNoMarkup(value: string)
    ensures forall c :: c in EscapeXml(value) ==> !Markup(c)
    ensures forall n :: 0 <= n < |EscapeXml(value)| && EscapeXml(value)[n] == '&' ==>
              BeginsEntity(EscapeXml(value)[n..])
  {
    XmlOnePass(value);
    hide EscapeXml, BeginsEntity, XmlEscape;
    forall c | c in EscapeXml(value) ensures !Markup(c) {
      OnePassHasNoMarkup(value, c);
    }
    forall n | 0 <= n < |EscapeXml(value)| && EscapeXml(value)[n] == '&'
      ensures BeginsEntity(EscapeXml(value)[n..])
    {
      AmpersandsOfOnePass(value, n);
    }
  }
}
