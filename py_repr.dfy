// Python's `repr` of a string: the choice of quote, the escapes it writes,
// and how Python reads the literal back.
module PyRepr {
  import opened Wrappers

  // ------------------------------------------------------------------ hex

  function Pow16(w: nat): nat {
    if w == 0 then 1 else 16 * Pow16(w - 1)
  }

  function HexDigit(d: nat): char
    requires d < 16
  {
    if d < 10 then ('0' as int + d) as char else ('a' as int + d - 10) as char
  }

  predicate IsHexDigit(c: char) {
    '0' <= c <= '9' || 'a' <= c <= 'f' || 'A' <= c <= 'F'
  }

  function HexDigitValue(c: char): nat
    requires IsHexDigit(c)
  {
    if '0' <= c <= '9' then c as int - '0' as int
    else if 'a' <= c <= 'f' then c as int - 'a' as int + 10
    else c as int - 'A' as int + 10
  }

  /** `n` in `w` lower-case hexadecimal digits, as `repr` writes a code point. */
  function Hex(n: nat, w: nat): (r: string)
    ensures |r| == w && forall k :: 0 <= k < |r| ==> IsHexDigit(r[k])
  {
    if w == 0 then [] else Hex(n / 16, w - 1) + [HexDigit(n % 16)]
  }

  function HexValue(h: string): nat
    requires forall k :: 0 <= k < |h| ==> IsHexDigit(h[k])
  {
    if |h| == 0 then 0 else 16 * HexValue(h[..|h| - 1]) + HexDigitValue(h[|h| - 1])
  }

  lemma {:induction false} HexValueOfHex(n: nat, w: nat)
    requires n < Pow16(w)
    ensures HexValue(Hex(n, w)) == n
  {
    if w > 0 {
      assert n / 16 < Pow16(w - 1);
      HexValueOfHex(n / 16, w - 1);
      assert Hex(n, w)[..w - 1] == Hex(n / 16, w - 1);
    }
  }

  // ----------------------------------------------------------------- repr

  /** `repr` quotes with `"` when the text has a `'` and no `"`, and with `'` otherwise. */
  function QuoteFor(s: string): char {
    if '\'' in s && '"' !in s then '"' else '\''
  }

  /**
   * The characters `repr` writes as they are: the printable ones. Below
   * U+0100 this is `str.isprintable()` exactly; above it, only the
   * whitespace characters count as unprintable here, so every character
   * `repr` escapes fits a `\u` escape.
   */
  predicate Printable(c: char) {
    (' ' <= c && c as int < 0x7F)
    || (c as int > 0xA0 && c as int != 0xAD && c as int != 0x1680 && !(0x2000 <= c as int <= 0x200A)
        && c as int != 0x2028 && c as int != 0x2029 && c as int != 0x202F && c as int != 0x205F
        && c as int != 0x3000)
  }

  /** What `repr` writes for one character inside quotes `q`. */
  function EscapeChar(c: char, q: char): (r: string)
    ensures |r| > 0
  {
    if c == q || c == '\\' then ['\\', c]
    else if c == '\t' then "\\t"
    else if c == '\n' then "\\n"
    else if c == '\r' then "\\r"
    else if Printable(c) then [c]
    else if c as int <= 0xFF then "\\x" + Hex(c as int, 2)
    else "\\u" + Hex(c as int, 4)
  }

  function Escape(s: string, q: char): string {
    if |s| == 0 then [] else EscapeChar(s[0], q) + Escape(s[1..], q)
  }

  /** `repr(s)` for a string. */
  function StrRepr(s: string): (r: string)
    ensures |r| >= |s| + 2 && r[0] == r[|r| - 1] == QuoteFor(s)
  {
    EscapeLength(s, QuoteFor(s));
    [QuoteFor(s)] + Escape(s, QuoteFor(s)) + [QuoteFor(s)]
  }

  lemma {:induction false} EscapeLength(s: string, q: char)
    ensures |Escape(s, q)| >= |s|
  {
    if |s| > 0 {
      EscapeLength(s[1..], q);
    }
  }

  // ------------------------------------------------- reading a literal back

  predicate IsScalar(n: int) {
    0 <= n < 0xD800 || 0xE000 <= n < 0x110000
  }

  function Cons(c: char, r: Option<string>): Option<string> {
    match r
    case None => None
    case Some(t) => Some([c] + t)
  }

  /** A `\x`, `\u` or `\U` escape of `w` hex digits at the front of `e`, then the rest. */
  function ReadCodePoint(e: string, w: nat, q: char): Option<string>
    requires |e| >= 2
    decreases |e|, 0
  {
    if |e| < 2 + w || exists k :: 2 <= k < 2 + w && !IsHexDigit(e[k]) then None
    else
      var n := HexValue(e[2..2 + w]);
      if IsScalar(n) then Cons(n as char, ReadBody(e[2 + w..], q)) else None
  }

  /**
   * How Python reads the text between the quotes `q` of a string literal:
   * an unescaped quote or line break ends it early (None), and the escapes
   * `repr` writes stand for their characters.
   */
  function ReadBody(e: string, q: char): Option<string>
    decreases |e|, 1
  {
    if |e| == 0 then Some([])
    else if e[0] == q || e[0] == '\n' || e[0] == '\r' then None
    else if e[0] != '\\' then Cons(e[0], ReadBody(e[1..], q))
    else if |e| < 2 then None
    else if e[1] == '\\' || e[1] == '\'' || e[1] == '"' then Cons(e[1], ReadBody(e[2..], q))
    else if e[1] == 't' then Cons('\t', ReadBody(e[2..], q))
    else if e[1] == 'n' then Cons('\n', ReadBody(e[2..], q))
    else if e[1] == 'r' then Cons('\r', ReadBody(e[2..], q))
    else if e[1] == 'x' then ReadCodePoint(e, 2, q)
    else if e[1] == 'u' then ReadCodePoint(e, 4, q)
    else if e[1] == 'U' then ReadCodePoint(e, 8, q)
    else None
  }

  /** How Python reads a whole literal: a quote, a body and the same quote. */
  function ReadLiteral(r: string): Option<string> {
    if |r| < 2 || r[0] != r[|r| - 1] || (r[0] != '\'' && r[0] != '"') then None
    else ReadBody(r[1..|r| - 1], r[0])
  }

  /** A hex escape reads back as the character it encodes. */
  lemma ReadHexEscape(c: char, x: char, w: nat, q: char, rest: string)
    requires c as int < Pow16(w)
    ensures ReadCodePoint(['\\', x] + Hex(c as int, w) + rest, w, q) == Cons(c, ReadBody(rest, q))
  {
    var e := ['\\', x] + Hex(c as int, w) + rest;
    assert e[2..2 + w] == Hex(c as int, w);
    assert e[2 + w..] == rest;
    HexValueOfHex(c as int, w);
  }

  /** One escaped character reads back as itself, whatever follows. */
  lemma ReadEscapeChar(c: char, q: char, rest: string)
    requires q == '\'' || q == '"'
    ensures ReadBody(EscapeChar(c, q) + rest, q) == Cons(c, ReadBody(rest, q))
  {
    var e := EscapeChar(c, q) + rest;
    if c == q || c == '\\' || c == '\t' || c == '\n' || c == '\r' {
      assert e[2..] == rest;
    } else if Printable(c) {
      assert e[1..] == rest;
    } else if c as int <= 0xFF {
      assert Pow16(2) == 256;
      ReadHexEscape(c, 'x', 2, q, rest);
      assert e == ['\\', 'x'] + Hex(c as int, 2) + rest;
    } else {
      assert Pow16(4) == 0x10000;
      ReadHexEscape(c, 'u', 4, q, rest);
      assert e == ['\\', 'u'] + Hex(c as int, 4) + rest;
    }
  }

  lemma {:induction false} ReadEscape(s: string, q: char)
    requires q == '\'' || q == '"'
    ensures ReadBody(Escape(s, q), q) == Some(s)
  {
    if |s| > 0 {
      ReadEscape(s[1..], q);
      ReadEscapeChar(s[0], q, Escape(s[1..], q));
      assert [s[0]] + s[1..] == s;
    }
  }

  /** Python reads `repr(s)` back as `s`: the literal is well formed and every escape stands for its character. */
  lemma ReadRepr(s: string)
    ensures ReadLiteral(StrRepr(s)) == Some(s)
  {
    var r := StrRepr(s);
    assert r[1..|r| - 1] == Escape(s, QuoteFor(s));
    ReadEscape(s, QuoteFor(s));
  }

  /** `repr` writes the same string as `repr` of another only for the same string. */
  lemma ReprInjective(s: string, t: string)
    requires StrRepr(s) == StrRepr(t)
    ensures s == t
  {
    ReadRepr(s);
    ReadRepr(t);
  }

  /** A text of printable characters without quotes or backslashes is written between single quotes as it is. */
  lemma {:induction false} EscapePlain(s: string, q: char)
    requires forall k :: 0 <= k < |s| ==> Printable(s[k]) && s[k] != q && s[k] != '\\'
    ensures Escape(s, q) == s
  {
    if |s| > 0 {
      EscapePlain(s[1..], q);
      assert [s[0]] + s[1..] == s;
    }
  }

  lemma ReprPlain(s: string)
    requires forall k :: 0 <= k < |s| ==> Printable(s[k]) && s[k] != '\'' && s[k] != '\\'
    ensures StrRepr(s) == "'" + s + "'"
  {
    EscapePlain(s, '\'');
  }

  /**
   * A printable text with an apostrophe, no double quote and no backslash,
   * such as `O'Brien`, is written between double quotes as it is.
   */
  lemma ReprApostrophe(s: string)
    requires '\'' in s && '"' !in s
    requires forall k :: 0 <= k < |s| ==> Printable(s[k]) && s[k] != '\\'
    ensures StrRepr(s) == "\"" + s + "\""
  {
    EscapePlain(s, '"');
  }
}
