/** Python's `repr()` of a string and `str()` of a list of strings, as an
    f-string writes them: the string between quotes, with the quote, the
    backslash, tabs, line breaks and unprintable characters escaped.
    Whether a non-ASCII character is printable comes from Unicode's tables,
    given here as the parameter `printable`; ASCII is decided exactly. The
    partner is `Unrepr`, the reading of such a literal back into text. */
module PyRepr {
  import opened Wrappers
  import Text
  import Json

  /** `v` written as exactly `n` lower-case hexadecimal digits. */
  function HexN(v: nat, n: nat): (h: string)
    ensures |h| == n
  {
    if n == 0 then [] else HexN(v / 16, n - 1) + [Json.HexDigit(v % 16)]
  }

  function Pow16(n: nat): (p: nat)
    ensures p >= 1
  {
    if n == 0 then 1 else 16 * Pow16(n - 1)
  }

  /** The number a run of hexadecimal digits stands for. */
  function HexNum(h: string): Option<nat>
  {
    if h == [] then Some(0)
    else
      match (HexNum(h[..|h| - 1]), Json.HexValue(h[|h| - 1]))
      case (Some(hi), Some(lo)) => Some(hi * 16 + lo)
      case _ => None
  }

  lemma {:induction false} HexNumHexN(v: nat, n: nat)
    requires v < Pow16(n)
    ensures HexNum(HexN(v, n)) == Some(v)
  {
    if n > 0 {
      HexNumHexN(v / 16, n - 1);
      var h := HexN(v, n);
      assert h[..|h| - 1] == HexN(v / 16, n - 1);
      var d := v % 16;
      assert Json.HexValue(Json.HexDigit(d)) == Some(d);
    }
  }

  /** The quote `repr` chooses: double quotes when the text holds a single
      quote and no double quote, single quotes otherwise. */
  function QuoteFor(s: string): (q: char)
    ensures q == '\'' || q == '"'
    ensures q == '"' <==> '\'' in s && '"' !in s
  {
    if '\'' in s && '"' !in s then '"' else '\''
  }

  /** How `repr` writes one character inside quotes `q`. */
  function ReprChar(c: char, q: char, printable: char -> bool): (r: string)
    ensures |r| >= 1
  {
    var n := c as int;
    if c == q || c == '\\' then ['\\', c]
    else if c == '\t' then "\\t"
    else if c == '\n' then "\\n"
    else if c == '\r' then "\\r"
    else if n < 0x20 || n == 0x7F then "\\x" + HexN(n, 2)
    else if n < 0x7F then [c]
    else if printable(c) then [c]
    else if n <= 0xFF then "\\x" + HexN(n, 2)
    else if n <= 0xFFFF then "\\u" + HexN(n, 4)
    else "\\U" + HexN(n, 8)
  }

  function ReprBody(s: string, q: char, printable: char -> bool): string
  {
    if s == [] then "" else ReprChar(s[0], q, printable) + ReprBody(s[1..], q, printable)
  }

  /** `repr(s)`. */
  function Repr(s: string, printable: char -> bool): (r: string)
    ensures |r| >= 2 && r[0] == r[|r| - 1] == QuoteFor(s)
  {
    var q := QuoteFor(s);
    [q] + ReprBody(s, q, printable) + [q]
  }

  function Reprs(items: seq<string>, printable: char -> bool): (r: seq<string>)
    ensures |r| == |items|
    ensures forall i :: 0 <= i < |items| ==> r[i] == Repr(items[i], printable)
  {
    if items == [] then [] else [Repr(items[0], printable)] + Reprs(items[1..], printable)
  }

  /** `str(items)` for a list of strings: the items' `repr`s between
      brackets, separated by a comma and a space. */
  function ListRepr(items: seq<string>, printable: char -> bool): (r: string)
    ensures items == [] ==> r == "[]"
  {
    "[" + Text.Join(", ", Reprs(items, printable)) + "]"
  }

  /** The text between the quotes of a Python string literal quoted with
      `q`, read back: `None` when the literal would be malformed (the bare
      quote, a raw line break, an unknown or unfinished escape, a code point
      that is not a character). */
  function Unrepr(t: string, q: char): Option<string>
  {
    if t == [] then Some("")
    else if t[0] == q || t[0] == '\n' then None
    else if t[0] != '\\' then
      match Unrepr(t[1..], q)
      case Some(rest) => Some([t[0]] + rest)
      case None => None
    else if |t| < 2 then None
    else
      match Escape(t)
      case None => None
      case Some((c, k)) =>
        match Unrepr(t[k..], q)
        case Some(rest) => Some([c] + rest)
        case None => None
  }

  /** The escape sequence at the start of `t` (a backslash and what follows):
      the character it stands for and its length, or `None` when unknown,
      unfinished or not a character. */
  function Escape(t: string): (r: Option<(char, nat)>)
    requires |t| >= 2
    ensures r.Some? ==> 2 <= r.value.1 <= |t|
  {
    var e := t[1];
    var width: nat := if e == 'x' then 2 else if e == 'u' then 4 else if e == 'U' then 8 else 0;
    if e == '\\' || e == '\'' || e == '"' then Some((e, 2))
    else if e == 't' then Some(('\t', 2))
    else if e == 'n' then Some(('\n', 2))
    else if e == 'r' then Some(('\r', 2))
    else if width > 0 && |t| >= 2 + width then
      match HexNum(t[2..2 + width])
      case Some(v) => if v < 0xD800 || 0xE000 <= v < 0x11_0000 then Some((v as char, 2 + width)) else None
      case None => None
    else None
  }

  /** Reading back what `ReprChar` wrote gives the character. */
  lemma ReprCharDecodes(c: char, q: char, printable: char -> bool, rest: string)
    requires q == '\'' || q == '"'
    ensures Unrepr(ReprChar(c, q, printable) + rest, q)
         == (match Unrepr(rest, q) case Some(r) => Some([c] + r) case None => None)
  {
    var n := c as int;
    var r := ReprChar(c, q, printable);
    if c == q || c == '\\' {
      assert r == ['\\', c];
      NamedEscapeDecodes(c, c, q, rest);
    } else if c == '\t' {
      assert r == ['\\', 't'];
      NamedEscapeDecodes('t', c, q, rest);
    } else if c == '\n' {
      assert r == ['\\', 'n'];
      NamedEscapeDecodes('n', c, q, rest);
    } else if c == '\r' {
      assert r == ['\\', 'r'];
      NamedEscapeDecodes('r', c, q, rest);
    } else if n < 0x20 || n == 0x7F || (n >= 0x7F && !printable(c)) {
      Pow16Widths();
      if n <= 0xFF {
        assert r == ['\\', 'x'] + HexN(n, 2);
        HexEscapeDecodes(c, q, 'x', 2, rest);
      } else if n <= 0xFFFF {
        assert r == ['\\', 'u'] + HexN(n, 4);
        HexEscapeDecodes(c, q, 'u', 4, rest);
      } else {
        assert r == ['\\', 'U'] + HexN(n, 8);
        HexEscapeDecodes(c, q, 'U', 8, rest);
      }
    } else {
      assert r == [c];
      assert ([c] + rest)[1..] == rest;
    }
  }

  lemma Pow16Widths()
    ensures Pow16(2) == 0x100 && Pow16(4) == 0x1_0000 && Pow16(8) == 0x1_0000_0000
  {
    assert Pow16(2) == 0x100;
    assert Pow16(4) == 0x1_0000;
  }

  /** A backslash and a letter or a quote read back as one character. */
  lemma NamedEscapeDecodes(e: char, c: char, q: char, rest: string)
    requires (e == c && (e == '\\' || e == '\'' || e == '"'))
          || (e == 't' && c == '\t') || (e == 'n' && c == '\n') || (e == 'r' && c == '\r')
    requires q == '\'' || q == '"'
    ensures Unrepr(['\\', e] + rest, q)
         == (match Unrepr(rest, q) case Some(r) => Some([c] + r) case None => None)
  {
    var t := ['\\', e] + rest;
    assert t[0] == '\\' && t[1] == e;
    assert Escape(t) == Some((c, 2));
    assert t[2..] == rest;
  }

  /** A hexadecimal escape of the right width reads back as its character. */
  lemma HexEscapeDecodes(c: char, q: char, letter: char, width: nat, rest: string)
    requires (letter == 'x' && width == 2) || (letter == 'u' && width == 4) || (letter == 'U' && width == 8)
    requires c as int < Pow16(width)
    requires q == '\'' || q == '"'
    ensures Unrepr(['\\', letter] + HexN(c as int, width) + rest, q)
         == (match Unrepr(rest, q) case Some(r) => Some([c] + r) case None => None)
  {
    var t := ['\\', letter] + HexN(c as int, width) + rest;
    assert t[0] == '\\' && t[1] == letter && |t| >= 2 + width;
    assert t[2..2 + width] == HexN(c as int, width);
    HexNumHexN(c as int, width);
    assert Escape(t) == Some((c, 2 + width));
    assert t[2 + width..] == rest;
  }

  /** `repr` loses nothing: reading the literal back gives the text. */
  lemma {:induction false} UnreprRepr(s: string, q: char, printable: char -> bool)
    requires q == '\'' || q == '"'
    ensures Unrepr(ReprBody(s, q, printable), q) == Some(s)
  {
    if s != [] {
      UnreprRepr(s[1..], q, printable);
      ReprCharDecodes(s[0], q, printable, ReprBody(s[1..], q, printable));
      assert [s[0]] + s[1..] == s;
    }
  }

  /** `repr` writes everything on one line. */
  lemma {:induction false} ReprBodyNoNewline(s: string, q: char, printable: char -> bool)
    requires q == '\'' || q == '"'
    ensures '\n' !in ReprBody(s, q, printable)
  {
    if s != [] {
      ReprBodyNoNewline(s[1..], q, printable);
      ReprCharNoNewline(s[0], q, printable);
    }
  }

  lemma ReprCharNoNewline(c: char, q: char, printable: char -> bool)
    requires q == '\'' || q == '"'
    ensures '\n' !in ReprChar(c, q, printable)
  {
    var n := c as int;
    if c != q && c != '\\' && c != '\t' && c != '\n' && c != '\r'
      && (n < 0x20 || n == 0x7F || (n >= 0x7F && !printable(c))) {
      var width := if n <= 0xFF then 2 else if n <= 0xFFFF then 4 else 8;
      var r := ReprChar(c, q, printable);
      assert r == ['\\', r[1]] + HexN(n, width);
      assert r[1] in "xuU";
      HexNDigits(n, width);
    }
  }

  lemma {:induction false} HexNDigits(v: nat, n: nat)
    ensures '\n' !in HexN(v, n)
  {
    if n > 0 {
      HexNDigits(v / 16, n - 1);
    }
  }

  lemma ListReprNoNewline(items: seq<string>, printable: char -> bool)
    ensures '\n' !in ListRepr(items, printable)
  {
    var rs := Reprs(items, printable);
    forall i | 0 <= i < |rs| ensures '\n' !in rs[i] {
      ReprBodyNoNewline(items[i], QuoteFor(items[i]), printable);
    }
    Text.JoinFree(", ", rs, '\n');
  }
}
