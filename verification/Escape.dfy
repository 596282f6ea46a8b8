/** escapeJSON (internal/logger/logger.go:245-252): five successive ReplaceAll passes,
    against the string grammar of section 7 of RFC 8259. */
module Escape {
  import opened Tasks

  /** strings.ReplaceAll for a pattern of one character. */
  function ReplaceAll(s: string, from: char, to: string): string {
    if s == [] then [] else (if s[0] == from then to else [s[0]]) + ReplaceAll(s[1..], from, to)
  }

  function EscapeJSON(s: string): string {
    var s1 := ReplaceAll(s, '\\', "\\\\");
    var s2 := ReplaceAll(s1, '"', "\\\"");
    var s3 := ReplaceAll(s2, '\n', "\\n");
    var s4 := ReplaceAll(s3, '\r', "\\r");
    ReplaceAll(s4, '\t', "\\t")
  }

  // ------------------------------------------------------- one pass instead of five

  function EscapeChar(c: char): string {
    if c == '\\' then "\\\\"
    else if c == '"' then "\\\""
    else if c == '\n' then "\\n"
    else if c == '\r' then "\\r"
    else if c == '\t' then "\\t"
    else [c]
  }

  function EscapeAll(s: string): string {
    if s == [] then [] else EscapeChar(s[0]) + EscapeAll(s[1..])
  }

  lemma {:induction false} ReplaceAllConcat(a: string, b: string, from: char, to: string)
    ensures ReplaceAll(a + b, from, to) == ReplaceAll(a, from, to) + ReplaceAll(b, from, to)
  {
    if a == [] {
      assert a + b == b;
    } else {
      assert (a + b)[1..] == a[1..] + b;
      ReplaceAllConcat(a[1..], b, from, to);
    }
  }

  lemma EscapeJSONConcat(a: string, b: string)
    ensures EscapeJSON(a + b) == EscapeJSON(a) + EscapeJSON(b)
  {
    var a1, b1 := ReplaceAll(a, '\\', "\\\\"), ReplaceAll(b, '\\', "\\\\");
    var a2, b2 := ReplaceAll(a1, '"', "\\\""), ReplaceAll(b1, '"', "\\\"");
    var a3, b3 := ReplaceAll(a2, '\n', "\\n"), ReplaceAll(b2, '\n', "\\n");
    var a4, b4 := ReplaceAll(a3, '\r', "\\r"), ReplaceAll(b3, '\r', "\\r");
    ReplaceAllConcat(a, b, '\\', "\\\\");
    ReplaceAllConcat(a1, b1, '"', "\\\"");
    ReplaceAllConcat(a2, b2, '\n', "\\n");
    ReplaceAllConcat(a3, b3, '\r', "\\r");
    ReplaceAllConcat(a4, b4, '\t', "\\t");
  }

  lemma ReplaceInOne(c: char, from: char, to: string)
    ensures ReplaceAll([c], from, to) == if c == from then to else [c]
  {
  }

  lemma ReplaceInTwo(c: char, d: char, from: char, to: string)
    requires c != from && d != from
    ensures ReplaceAll([c, d], from, to) == [c, d]
  {
    assert [c, d] == [c] + [d];
    ReplaceAllConcat([c], [d], from, to);
    ReplaceInOne(c, from, to);
    ReplaceInOne(d, from, to);
  }

  lemma EscapeJSONOfChar(c: char)
    ensures EscapeJSON([c]) == EscapeChar(c)
  {
    ReplaceInOne(c, '\\', "\\\\");
    if c == '\\' {
      ReplaceInTwo('\\', '\\', '"', "\\\"");
      ReplaceInTwo('\\', '\\', '\n', "\\n");
      ReplaceInTwo('\\', '\\', '\r', "\\r");
      ReplaceInTwo('\\', '\\', '\t', "\\t");
    } else {
      ReplaceInOne(c, '"', "\\\"");
      ReplaceInTwo('\\', '"', '\n', "\\n");
      ReplaceInTwo('\\', '"', '\r', "\\r");
      ReplaceInTwo('\\', '"', '\t', "\\t");
      ReplaceInOne(c, '\n', "\\n");
      ReplaceInTwo('\\', 'n', '\r', "\\r");
      ReplaceInTwo('\\', 'n', '\t', "\\t");
      ReplaceInOne(c, '\r', "\\r");
      ReplaceInTwo('\\', 'r', '\t', "\\t");
      ReplaceInOne(c, '\t', "\\t");
    }
  }

  /** The five passes amount to one character-by-character map. */
  lemma {:induction false} FivePassesAreOne(s: string)
    ensures EscapeJSON(s) == EscapeAll(s)
  {
    if s != [] {
      assert s == [s[0]] + s[1..];
      EscapeJSONConcat([s[0]], s[1..]);
      EscapeJSONOfChar(s[0]);
      FivePassesAreOne(s[1..]);
    }
  }

  // ------------------------------------------------------------ reading it back

  /** Must be escaped inside a JSON string. */
  predicate Control(c: char) { c < 0x20 as char }

  datatype Literal = Literal(text: string, rest: string)

  function HexValue(c: char): Option<nat> {
    if '0' <= c <= '9' then Some(c as int - '0' as int)
    else if 'a' <= c <= 'f' then Some(c as int - 'a' as int + 10)
    else if 'A' <= c <= 'F' then Some(c as int - 'A' as int + 10)
    else None
  }

  /** The character a two-character escape stands for. */
  function Unescaped(c: char): Option<char> {
    if c == '"' || c == '\\' || c == '/' then Some(c)
    else if c == 'b' then Some(8 as char)
    else if c == 'f' then Some(12 as char)
    else if c == 'n' then Some('\n')
    else if c == 'r' then Some('\r')
    else if c == 't' then Some('\t')
    else None
  }

  function HexChar(s: string): Option<char>
    requires |s| == 4
  {
    var a, b, c, d := HexValue(s[0]), HexValue(s[1]), HexValue(s[2]), HexValue(s[3]);
    if a.None? || b.None? || c.None? || d.None? then None
    else
      var code := ((a.value * 16 + b.value) * 16 + c.value) * 16 + d.value;
      if code < 0xD800 then Some(code as char) else None
  }

  function Prepend(c: char, l: Option<Literal>): Option<Literal> {
    if l.None? then None else Some(l.value.(text := [c] + l.value.text))
  }

  /** Reads a string literal from just after its opening quote up to its closing quote.
      Escapes of surrogate code points are not followed. */
  function ReadLiteral(s: string): Option<Literal>
    decreases |s|
  {
    if s == [] then None
    else if s[0] == '"' then Some(Literal([], s[1..]))
    else if Control(s[0]) then None
    else if s[0] != '\\' then Prepend(s[0], ReadLiteral(s[1..]))
    else if |s| < 2 then None
    else if s[1] == 'u' then
      if |s| < 6 || HexChar(s[2..6]).None? then None
      else Prepend(HexChar(s[2..6]).value, ReadLiteral(s[6..]))
    else if Unescaped(s[1]).None? then None
    else Prepend(Unescaped(s[1]).value, ReadLiteral(s[2..]))
  }

  /** The characters escapeJSON cannot carry: control characters other than these three. */
  predicate Unsupported(c: char) { Control(c) && c != '\n' && c != '\r' && c != '\t' }

  lemma {:induction false} ReadOneChar(c: char, tail: string)
    ensures ReadLiteral(EscapeChar(c) + tail) == if Unsupported(c) then None else Prepend(c, ReadLiteral(tail))
  {
  }

  predicate Supported(s: string) { forall i :: 0 <= i < |s| ==> !Unsupported(s[i]) }

  lemma {:induction false} ReadEscaped(s: string, rest: string)
    ensures ReadLiteral(EscapeAll(s) + ['"'] + rest) == if Supported(s) then Some(Literal(s, rest)) else None
  {
    var line := EscapeAll(s) + ['"'] + rest;
    if s == [] {
      assert line[0] == '"' && line[1..] == rest;
    } else {
      var tail := EscapeAll(s[1..]) + ['"'] + rest;
      ReadEscaped(s[1..], rest);
      assert line == EscapeChar(s[0]) + tail;
      ReadOneChar(s[0], tail);
      assert [s[0]] + s[1..] == s;
      assert !Unsupported(s[0]) && Supported(s[1..]) ==> Supported(s) by {
        assert forall i :: 1 <= i < |s| ==> s[i] == s[1..][i - 1];
      }
    }
  }

  /** In a log line, a message written as `"` + escapeJSON(s) + `"` is read back as s, with
      the rest of the line intact, exactly when s has no control character other than
      newline, return and tab; otherwise the line is not JSON. */
  lemma EscapedMessageReadsBack(s: string, rest: string)
    ensures ReadLiteral(EscapeJSON(s) + ['"'] + rest) == Some(Literal(s, rest))
      <==> Supported(s)
    ensures !Supported(s) ==> ReadLiteral(EscapeJSON(s) + ['"'] + rest) == None
  {
    FivePassesAreOne(s);
    ReadEscaped(s, rest);
  }

  /** What follows the first quote that no backslash escapes. This reader knows quotes and
      backslashes only, and does not care whether the rest is valid JSON. */
  function AfterClosingQuote(s: string): Option<string>
    decreases |s|
  {
    if s == [] then None
    else if s[0] == '"' then Some(s[1..])
    else if s[0] != '\\' then AfterClosingQuote(s[1..])
    else if |s| < 2 then None
    else AfterClosingQuote(s[2..])
  }

  /** No message, whatever its characters, closes its quotes early or keeps them open. */
  lemma {:induction false} MessageStaysQuoted(s: string, rest: string)
    ensures AfterClosingQuote(EscapeJSON(s) + ['"'] + rest) == Some(rest)
  {
    FivePassesAreOne(s);
    var line := EscapeAll(s) + ['"'] + rest;
    if s == [] {
      assert line[0] == '"' && line[1..] == rest;
    } else {
      var e, tail := EscapeChar(s[0]), EscapeAll(s[1..]) + ['"'] + rest;
      MessageStaysQuoted(s[1..], rest);
      FivePassesAreOne(s[1..]);
      assert line == e + tail;
      assert line[0] == e[0] && line[|e|..] == tail;
    }
  }

  /** No raw newline, return or tab survives: one log call writes one line. */
  lemma {:induction false} NoRawBreaks(s: string)
    ensures forall c :: c in EscapeJSON(s) ==> c != '\n' && c != '\r' && c != '\t'
  {
    FivePassesAreOne(s);
    if s != [] {
      NoRawBreaks(s[1..]);
      FivePassesAreOne(s[1..]);
    }
  }

  /** Different messages never produce the same text. */
  lemma EscapeIsInjective(a: string, b: string)
    requires EscapeJSON(a) == EscapeJSON(b)
    ensures a == b
  {
    FivePassesAreOne(a);
    FivePassesAreOne(b);
    EscapeAllInjective(a, b);
  }

  lemma {:induction false} EscapeAllInjective(a: string, b: string)
    requires EscapeAll(a) == EscapeAll(b)
    ensures a == b
  {
    if a != [] && b != [] {
      var x, y := EscapeAll(a), EscapeAll(b);
      assert x[0] == EscapeChar(a[0])[0] && y[0] == EscapeChar(b[0])[0];
      if x[0] == '\\' {
        assert x[1] == EscapeChar(a[0])[1] && y[1] == EscapeChar(b[0])[1];
      }
      assert a[0] == b[0];
      assert x[|EscapeChar(a[0])|..] == EscapeAll(a[1..]) && y[|EscapeChar(b[0])|..] == EscapeAll(b[1..]);
      EscapeAllInjective(a[1..], b[1..]);
    }
  }
}
