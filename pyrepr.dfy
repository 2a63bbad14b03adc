/**
 * Python's `repr` of a string, as `str(KeyError(msg))` shows the message:
 * the text between quotes, with the quote, the backslash and the characters
 * `str.isprintable` rejects written as escapes. Non-ASCII characters are
 * modelled up to U+00FF; above it every character is taken as printable.
 */
module PyRepr {
  import opened Wrappers

  /** The quote `repr` chooses: `"` when the text holds `'` and no `"`, otherwise `'`. */
  function Quote(s: string): (q: char)
    ensures q == '"' <==> '\'' in s && '"' !in s
    ensures q == '\'' || q == '"'
  {
    if '\'' in s && '"' !in s then '"' else '\''
  }

  /** A lower-case hexadecimal digit. */
  function HexDigit(d: nat): (c: char)
    requires d < 16
    ensures IsHexDigit(c) && HexValue(c) == d
  {
    if d < 10 then ('0' as int + d) as char else ('a' as int + d - 10) as char
  }

  predicate IsHexDigit(c: char)
  {
    '0' <= c <= '9' || 'a' <= c <= 'f'
  }

  function HexValue(c: char): (d: nat)
    requires IsHexDigit(c)
    ensures d < 16
  {
    if c <= '9' then c as int - '0' as int else c as int - 'a' as int + 10
  }

  /**
   * The characters up to U+00FF that `str.isprintable` rejects: the C0
   * controls, DEL, the C1 controls, the no-break space and the soft hyphen.
   */
  predicate Unprintable(c: char)
  {
    c as int < 0x20 || 0x7f <= c as int <= 0xa0 || c as int == 0xad
  }

  /** How `repr` writes one character between quotes `q`. */
  function EscapeChar(c: char, q: char): (r: string)
    ensures |r| >= 1
  {
    if c == q || c == '\\' then ['\\', c]
    else if c == '\t' then "\\t"
    else if c == '\n' then "\\n"
    else if c == '\r' then "\\r"
    else if Unprintable(c) then ['\\', 'x', HexDigit(c as int / 16), HexDigit(c as int % 16)]
    else [c]
  }

  /** The text between the quotes. */
  function Body(s: string, q: char): string
  {
    if s == [] then [] else EscapeChar(s[0], q) + Body(s[1..], q)
  }

  /** `repr(s)`. */
  function Repr(s: string): (r: string)
    ensures |r| >= 2 && r[0] == Quote(s) && r[|r| - 1] == Quote(s)
    ensures r[1..|r| - 1] == Body(s, Quote(s))
  {
    [Quote(s)] + Body(s, Quote(s)) + [Quote(s)]
  }

  // ---------------------------------------------------------------- reading back

  function Prepend(c: char, rest: Option<string>): Option<string>
  {
    match rest
    case None => None
    case Some(t) => Some([c] + t)
  }

  /**
   * The text a Python string literal's body stands for, for the escapes
   * `repr` writes: `\\`, `\'`, `\"`, `\t`, `\n`, `\r` and `\xHH`; `None`
   * for any other backslash.
   */
  function Unescape(t: string): Option<string>
    decreases |t|
  {
    if t == [] then Some([])
    else if t[0] != '\\' then Prepend(t[0], Unescape(t[1..]))
    else if |t| < 2 then None
    else if t[1] == '\\' || t[1] == '\'' || t[1] == '"' then Prepend(t[1], Unescape(t[2..]))
    else if t[1] == 't' then Prepend('\t', Unescape(t[2..]))
    else if t[1] == 'n' then Prepend('\n', Unescape(t[2..]))
    else if t[1] == 'r' then Prepend('\r', Unescape(t[2..]))
    else if |t| >= 4 && t[1] == 'x' && IsHexDigit(t[2]) && IsHexDigit(t[3]) then
      Prepend((16 * HexValue(t[2]) + HexValue(t[3])) as char, Unescape(t[4..]))
    else None
  }

  /** One escaped character reads back as itself, ahead of whatever follows. */
  lemma UnescapeChar(c: char, q: char, rest: string)
    requires q == '\'' || q == '"'
    ensures Unescape(EscapeChar(c, q) + rest) == Prepend(c, Unescape(rest))
  {
    var t := EscapeChar(c, q) + rest;
    if c == q || c == '\\' {
      assert t[2..] == rest;
    } else if c == '\t' || c == '\n' || c == '\r' {
      assert t[2..] == rest;
    } else if Unprintable(c) {
      assert t[4..] == rest;
      assert 16 * HexValue(t[2]) + HexValue(t[3]) == c as int;
    } else {
      assert t[1..] == rest;
    }
  }

  /** Reading the body back gives the original text, under either quote. */
  lemma {:induction false} UnescapeBody(s: string, q: char)
    requires q == '\'' || q == '"'
    ensures Unescape(Body(s, q)) == Some(s)
  {
    if s != [] {
      UnescapeBody(s[1..], q);
      UnescapeChar(s[0], q, Body(s[1..], q));
      assert [s[0]] + s[1..] == s;
    }
  }

  lemma {:induction false} BodyAppend(a: string, b: string, q: char)
    ensures Body(a + b, q) == Body(a, q) + Body(b, q)
  {
    if a != [] {
      assert (a + b)[1..] == a[1..] + b;
      BodyAppend(a[1..], b, q);
    } else {
      assert a + b == b;
    }
  }

  /** A character `repr` keeps as it is between quotes `q`. */
  predicate Plain(c: char, q: char)
  {
    c != q && c != '\\' && !Unprintable(c)
  }

  /** A text of plain characters is its own body. */
  lemma {:induction false} BodyPlain(s: string, q: char)
    requires forall i :: 0 <= i < |s| ==> Plain(s[i], q)
    ensures Body(s, q) == s
  {
    if s != [] {
      BodyPlain(s[1..], q);
    }
  }

  /** Every character of `s` is kept as it is between quotes `q`. */
  predicate AllPlain(s: string, q: char)
  {
    forall i :: 0 <= i < |s| ==> Plain(s[i], q)
  }

  lemma BodyOne(c: char, q: char)
    ensures Body([c], q) == EscapeChar(c, q)
  {
    assert [c][1..] == [];
  }

  /**
   * `a'mid'b` with plain parts: between double quotes the single quotes are
   * kept; between single quotes they are escaped.
   */
  lemma BodyQuoted(a: string, mid: string, b: string, q: char)
    requires AllPlain(a, q) && AllPlain(mid, q) && AllPlain(b, q)
    ensures Body(a + "'" + mid + "'" + b, q) == a + EscapeChar('\'', q) + mid + EscapeChar('\'', q) + b
  {
    var e := EscapeChar('\'', q);
    var s1 := a + "'";
    var s2 := s1 + mid;
    var s3 := s2 + "'";
    BodyOne('\'', q);
    BodyPlain(a, q);
    BodyPlain(mid, q);
    BodyPlain(b, q);
    BodyAppend(a, "'", q);
    assert Body(s1, q) == a + e;
    BodyAppend(s1, mid, q);
    assert Body(s2, q) == a + e + mid;
    BodyAppend(s2, "'", q);
    assert Body(s3, q) == a + e + mid + e;
    BodyAppend(s3, b, q);
  }

  /** `a'mid'b` without `"` is quoted with `"`; with a `"` in `mid`, with `'`. */
  lemma QuoteOfQuoted(a: string, mid: string, b: string)
    requires '"' !in a && '"' !in b
    ensures Quote(a + "'" + mid + "'" + b) == (if '"' in mid then '\'' else '"')
  {
    var t := a + "'" + mid + "'" + b;
    assert t[|a|] == '\'';
    if '"' in mid {
      var k :| 0 <= k < |mid| && mid[k] == '"';
      assert t[|a| + 1 + k] == '"';
    } else {
      forall i | 0 <= i < |t|
        ensures t[i] != '"'
      {
        if i < |a| {
          assert t[i] == a[i];
        } else if |a| < i <= |a| + |mid| {
          assert t[i] == mid[i - |a| - 1];
        } else if |a| + 1 + |mid| < i {
          assert t[i] == b[i - |a| - |mid| - 2];
        }
      }
    }
  }
}
