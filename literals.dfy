/**
 * Text-level rules of cypher/syntax.py: how `cystr` quotes text (Python's
 * `repr` of a str), which names `Identifier` leaves bare (its `ident_re`),
 * and how Python's `str` writes an int.
 */
module Literals {
  import opened Utils

  // ---------------------------------------------------------------------
  // Quoting text: Python `repr(str)`
  // ---------------------------------------------------------------------

  /** `repr` delimits with a single quote unless the text holds a single
      quote and no double quote. */
  function QuoteChar(s: string): char
  {
    if '\'' in s && '"' !in s then '"' else '\''
  }

  function HexDigit(d: nat): char
    requires d < 16
  {
    if d < 10 then ('0' as int + d) as char else ('a' as int + d - 10) as char
  }

  predicate IsHexDigit(c: char)
  {
    '0' <= c <= '9' || 'a' <= c <= 'f'
  }

  function HexValue(c: char): (d: nat)
    requires IsHexDigit(c)
    ensures d < 16
  {
    if c <= '9' then c as int - '0' as int else c as int - 'a' as int + 10
  }

  /** A control character that `repr` writes as `\xHH`. */
  predicate IsHexEscaped(c: char)
  {
    (c < ' ' && c != '\t' && c != '\n' && c != '\r') || c as int == 0x7F
  }

  /** How `repr` writes one character inside a literal delimited by `q`. */
  function EscapeChar(c: char, q: char): string
  {
    if c == q || c == '\\' then ['\\', c]
    else if c == '\t' then "\\t"
    else if c == '\n' then "\\n"
    else if c == '\r' then "\\r"
    else if IsHexEscaped(c) then ['\\', 'x', HexDigit(c as int / 16), HexDigit(c as int % 16)]
    else [c]
  }

  function Escape(s: string, q: char): string
    decreases |s|
  {
    if |s| == 0 then "" else EscapeChar(s[0], q) + Escape(s[1..], q)
  }

  /** `repr(s)`: the chosen quote, the escaped text, the same quote. */
  function Quote(s: string): string
  {
    var q := QuoteChar(s);
    [q] + Escape(s, q) + [q]
  }

  function Cons(c: char, rest: Option<string>): Option<string>
  {
    match rest
    case None => None
    case Some(r) => Some([c] + r)
  }

  /** Reads the inside of a literal delimited by `q`. It fails on a bare
      occurrence of `q` (which would have ended the literal early) and on a
      malformed escape. */
  function Unescape(t: string, q: char): Option<string>
    decreases |t|
  {
    if |t| == 0 then Some("")
    else if t[0] == q then None
    else if t[0] != '\\' then Cons(t[0], Unescape(t[1..], q))
    else if |t| < 2 then None
    else if t[1] == q || t[1] == '\\' then Cons(t[1], Unescape(t[2..], q))
    else if t[1] == 't' then Cons('\t', Unescape(t[2..], q))
    else if t[1] == 'n' then Cons('\n', Unescape(t[2..], q))
    else if t[1] == 'r' then Cons('\r', Unescape(t[2..], q))
    else if t[1] == 'x' && |t| >= 4 && IsHexDigit(t[2]) && IsHexDigit(t[3]) then
      Cons((HexValue(t[2]) * 16 + HexValue(t[3])) as char, Unescape(t[4..], q))
    else None
  }

  /** Reads a whole quoted literal back to the text it denotes. */
  function Unquote(r: string): Option<string>
  {
    if |r| >= 2 && (r[0] == '\'' || r[0] == '"') && r[|r| - 1] == r[0]
    then Unescape(r[1..|r| - 1], r[0])
    else None
  }

  lemma HexRoundTrip(c: char)
    requires IsHexEscaped(c)
    ensures IsHexDigit(HexDigit(c as int / 16)) && IsHexDigit(HexDigit(c as int % 16))
    ensures (HexValue(HexDigit(c as int / 16)) * 16 + HexValue(HexDigit(c as int % 16))) as char == c
  {
  }

  lemma UnescapeOneChar(c: char, q: char, rest: string)
    requires q == '\'' || q == '"'
    ensures Unescape(EscapeChar(c, q) + rest, q) == Cons(c, Unescape(rest, q))
  {
    var t := EscapeChar(c, q) + rest;
    if c == q || c == '\\' {
      assert t[2..] == rest;
    } else if c == '\t' || c == '\n' || c == '\r' {
      assert t[2..] == rest;
    } else if IsHexEscaped(c) {
      HexRoundTrip(c);
      assert t[4..] == rest;
    } else {
      assert t[1..] == rest;
    }
  }

  /** Escaping is undone by reading the escapes back. */
  lemma {:induction false} UnescapeEscape(s: string, q: char)
    requires q == '\'' || q == '"'
    ensures Unescape(Escape(s, q), q) == Some(s)
    decreases |s|
  {
    if |s| > 0 {
      var e := Escape(s[1..], q);
      assert Escape(s, q) == EscapeChar(s[0], q) + e;
      UnescapeOneChar(s[0], q, e);
      UnescapeEscape(s[1..], q);
      assert Unescape(e, q) == Some(s[1..]);
      assert [s[0]] + s[1..] == s;
    }
  }

  /** Every text renders as a literal that starts and ends with the same
      quote, whose inside holds no unescaped copy of that quote, and that
      reads back to exactly the original text. */
  lemma QuoteRoundTrip(s: string)
    ensures |Quote(s)| >= 2 && Quote(s)[0] == Quote(s)[|Quote(s)| - 1] == QuoteChar(s)
    ensures Unquote(Quote(s)) == Some(s)
  {
    var q := QuoteChar(s);
    var r := Quote(s);
    assert r[1..|r| - 1] == Escape(s, q);
    UnescapeEscape(s, q);
  }

  /** `repr` only switches to double quotes when that avoids escaping:
      whenever one of the two quote characters is absent from the text, the
      delimiter chosen is one the text does not contain. */
  lemma QuoteCharChoice(s: string)
    ensures QuoteChar(s) == '"' <==> ('\'' in s && '"' !in s)
    ensures ('\'' !in s || '"' !in s) ==> QuoteChar(s) !in s
  {
  }

  // ---------------------------------------------------------------------
  // Identifiers: ident_re = re.compile(r'^[_a-z][_a-z0-0]*$', re.I)
  // ---------------------------------------------------------------------

  /** `[_a-z]` under `re.I`, for ASCII. */
  predicate IsHeadChar(c: char)
  {
    c == '_' || 'a' <= c <= 'z' || 'A' <= c <= 'Z'
  }

  /** `[_a-z0-0]` under `re.I`: the range `0-0` holds the digit 0 alone. */
  predicate IsTailChar(c: char)
  {
    IsHeadChar(c) || c == '0'
  }

  /** `ident_re.match(s)`: Python's `$` also matches just before a final
      newline, so one trailing "\n" is allowed after the name. */
  predicate MatchesIdentifierPattern(s: string)
  {
    IsBareName(MatchedPart(s))
  }

  /** The part of the text that `^[_a-z][_a-z0-0]*` has to cover for `$` to match. */
  function MatchedPart(s: string): string
  {
    if |s| > 0 && s[|s| - 1] == '\n' then s[..|s| - 1] else s
  }

  predicate IsBareName(body: string)
  {
    |body| > 0 && IsHeadChar(body[0]) && forall i :: 1 <= i < |body| ==> IsTailChar(body[i])
  }

  /** The text `Identifier.tokenize` emits: the name bare when it matches the
      pattern, otherwise wrapped in backticks with nothing escaped inside. */
  function IdentifierText(name: string): string
  {
    if MatchesIdentifierPattern(name) then name else "`" + name + "`"
  }

  /** Takes off one pair of surrounding backticks, if there is one. */
  function Unbacktick(r: string): string
  {
    if |r| >= 2 && r[0] == '`' && r[|r| - 1] == '`' then r[1..|r| - 1] else r
  }

  /** The rendered identifier determines the name: a bare name never starts
      with a backtick, and a quoted one loses exactly its added pair. */
  lemma IdentifierRoundTrip(name: string)
    ensures Unbacktick(IdentifierText(name)) == name
    ensures IdentifierText(name) == name <==> MatchesIdentifierPattern(name)
  {
    if MatchesIdentifierPattern(name) {
      assert name[0] != '`';
    } else {
      var r := "`" + name + "`";
      assert r[1..|r| - 1] == name;
      assert |r| != |name|;
    }
  }

  /** Because of the `0-0` range, a name holding any digit from 1 to 9 is
      always quoted, even one like `a1` that Cypher accepts bare. */
  lemma DigitForcesQuotes(name: string, i: nat)
    requires i < |name| && '1' <= name[i] <= '9'
    ensures IdentifierText(name) == "`" + name + "`"
  {
    var body := MatchedPart(name);
    assert name[i] != '\n';
    assert i < |body| && body[i] == name[i];
    if i == 0 {
      assert !IsHeadChar(body[0]);
    } else {
      assert !IsTailChar(body[i]);
    }
    assert !MatchesIdentifierPattern(name);
  }

  /** Because `$` matches before a final newline, a bare name followed by
      "\n" is still emitted bare, newline included. */
  lemma TrailingNewlineStaysBare(name: string)
    requires MatchesIdentifierPattern(name) && name[|name| - 1] != '\n'
    ensures IdentifierText(name + "\n") == name + "\n"
  {
    var s := name + "\n";
    assert MatchedPart(name) == name;
    assert MatchedPart(s) == name;
  }

  // ---------------------------------------------------------------------
  // Python `str(int)`
  // ---------------------------------------------------------------------

  function DigitChar(d: nat): char
    requires d < 10
  {
    ('0' as int + d) as char
  }

  /** The number a string of decimal digits spells, most significant first. */
  function DigitsValue(s: string): int
    decreases |s|
  {
    if |s| == 0 then 0 else DigitsValue(s[..|s| - 1]) * 10 + (s[|s| - 1] as int - '0' as int)
  }

  /** `str(n)` for a natural number: the decimal digits that spell `n`, with
      no leading zero except for `0` itself. */
  function NatText(n: nat): (r: string)
    ensures |r| >= 1 && forall i :: 0 <= i < |r| ==> '0' <= r[i] <= '9'
    ensures DigitsValue(r) == n
    ensures r[0] == '0' <==> n == 0
    decreases n
  {
    if n < 10 then [DigitChar(n)] else NatText(n / 10) + [DigitChar(n % 10)]
  }

  /** Decimal text of an int, with a leading minus sign when negative. */
  function IntText(i: int): (r: string)
    ensures i >= 0 ==> DigitsValue(r) == i
    ensures i < 0 ==> |r| >= 2 && r[0] == '-' && DigitsValue(r[1..]) == -i
  {
    if i < 0 then "-" + NatText(-i) else NatText(i)
  }
}
