/** Python's `repr` of a string, as it appears when a list or dict holding
    strings is formatted into an f-string, together with the reading that
    takes such a literal back to the string it denotes. */
module PyRepr {
  import opened Optional

  predicate IsQuote(c: char)
  {
    c == '\'' || c == '"'
  }

  /** Python prefers single quotes and switches to double quotes only when the
      text holds a single quote and no double quote. */
  function QuoteFor(s: string): (q: char)
    ensures IsQuote(q)
    ensures q == '"' <==> ('\'' in s && '"' !in s)
  {
    if '\'' in s && '"' !in s then '"' else '\''
  }

  /** The characters of the Latin-1 range that `repr` writes as `\xhh`
      (controls, DEL, the C1 controls, no-break space and soft hyphen);
      tab, newline and carriage return have their own escapes. */
  predicate NeedsHexEscape(c: char)
  {
    || (c < ' ' && c != '\t' && c != '\n' && c != '\r')
    || ('\U{7f}' <= c <= '\U{a0}')
    || c == '\U{ad}'
  }

  function HexDigit(n: nat): (c: char)
    requires n < 16
  {
    if n < 10 then ('0' as int + n) as char else ('a' as int + n - 10) as char
  }

  function HexValue(c: char): Option<nat>
  {
    if '0' <= c <= '9' then Some(c as int - '0' as int)
    else if 'a' <= c <= 'f' then Some(c as int - 'a' as int + 10)
    else None
  }

  function EscapeChar(c: char, q: char): string
  {
    if c == '\\' || c == q then ['\\', c]
    else if c == '\t' then "\\t"
    else if c == '\n' then "\\n"
    else if c == '\r' then "\\r"
    else if NeedsHexEscape(c) then ['\\', 'x', HexDigit(c as int / 16), HexDigit(c as int % 16)]
    else [c]
  }

  function Escape(s: string, q: char): string
  {
    if s == [] then [] else EscapeChar(s[0], q) + Escape(s[1..], q)
  }

  /** `repr(s)` for a string `s` (characters outside Latin-1 are written as they are). */
  function ReprString(s: string): (r: string)
    ensures |r| >= 2 && IsQuote(r[0]) && r[|r| - 1] == r[0]
  {
    var q := QuoteFor(s);
    [q] + Escape(s, q) + [q]
  }

  function Prepend(c: char, rest: Option<string>): Option<string>
  {
    match rest
    case Some(t) => Some([c] + t)
    case None => None
  }

  /** Reads the body of a string literal quoted with `q`, undoing the escapes. */
  function Unescape(t: string, q: char): Option<string>
    decreases |t|
  {
    if t == [] then Some([])
    else if t[0] == q then None
    else if t[0] != '\\' then Prepend(t[0], Unescape(t[1..], q))
    else if |t| < 2 then None
    else if t[1] == '\\' || t[1] == q then Prepend(t[1], Unescape(t[2..], q))
    else if t[1] == 't' then Prepend('\t', Unescape(t[2..], q))
    else if t[1] == 'n' then Prepend('\n', Unescape(t[2..], q))
    else if t[1] == 'r' then Prepend('\r', Unescape(t[2..], q))
    else if t[1] == 'x' && |t| >= 4 && HexValue(t[2]).Some? && HexValue(t[3]).Some? then
      Prepend((HexValue(t[2]).value * 16 + HexValue(t[3]).value) as char, Unescape(t[4..], q))
    else None
  }

  /** Reads a quoted string literal. */
  function Unquote(r: string): Option<string>
  {
    if |r| >= 2 && IsQuote(r[0]) && r[|r| - 1] == r[0] then Unescape(r[1..|r| - 1], r[0]) else None
  }

  lemma HexRoundTrip(n: nat)
    requires n < 16
    ensures HexValue(HexDigit(n)) == Some(n)
  {
  }

  lemma {:induction false} EscapeCharRoundTrip(c: char, q: char, rest: string)
    requires IsQuote(q)
    ensures Unescape(EscapeChar(c, q) + rest, q) == Prepend(c, Unescape(rest, q))
  {
    var e := EscapeChar(c, q);
    var t := e + rest;
    if c == '\\' || c == q {
      assert t[2..] == rest;
    } else if c == '\t' || c == '\n' || c == '\r' {
      assert t[2..] == rest;
    } else if NeedsHexEscape(c) {
      var hi, lo := c as int / 16, c as int % 16;
      HexRoundTrip(hi);
      HexRoundTrip(lo);
      assert t[2] == HexDigit(hi) && t[3] == HexDigit(lo);
      assert t[4..] == rest;
    } else {
      assert t[1..] == rest;
    }
  }

  lemma {:induction false} EscapeRoundTrip(s: string, q: char)
    requires IsQuote(q)
    ensures Unescape(Escape(s, q), q) == Some(s)
  {
    if s != [] {
      EscapeCharRoundTrip(s[0], q, Escape(s[1..], q));
      EscapeRoundTrip(s[1..], q);
      assert [s[0]] + s[1..] == s;
    }
  }

  /** A string rendered inside a list or dict reads back as the same string:
      no two distinct texts are rendered alike. */
  lemma ReprStringRoundTrip(s: string)
    ensures Unquote(ReprString(s)) == Some(s)
  {
    var q := QuoteFor(s);
    var r := ReprString(s);
    assert r[1..|r| - 1] == Escape(s, q);
    EscapeRoundTrip(s, q);
  }
}
