/**
 * The fragments of Python's `str` behaviour the application code relies on:
 * `strip`, `lower`, `startswith`/`endswith`, `in`, `find`, `split`, `join`,
 * slicing `s[:n]`, `str(int)` and `int(str)`. Character classes are the
 * ASCII ones (see README, "Left out").
 */
module PyStr {
  import opened Wrappers

  // ---------------------------------------------------------------- characters

  /** `str.isspace` on ASCII: tab .. carriage return, the separators 0x1C .. 0x1F, and space. */
  predicate IsSpace(c: char)
  {
    9 <= c as int <= 13 || 28 <= c as int <= 32
  }

  /** `str.isdigit` on ASCII. */
  predicate IsDigit(c: char)
  {
    '0' <= c <= '9'
  }

  predicate AllDigits(s: string)
  {
    forall i :: 0 <= i < |s| ==> IsDigit(s[i])
  }

  predicate AllSpace(s: string)
  {
    forall i :: 0 <= i < |s| ==> IsSpace(s[i])
  }

  function LowerChar(c: char): char
  {
    if 'A' <= c <= 'Z' then (c as int + 32) as char else c
  }

  /** `str.lower` on ASCII letters; every other character is kept. */
  function Lower(s: string): (r: string)
    ensures |r| == |s|
    ensures forall i :: 0 <= i < |s| ==> r[i] == LowerChar(s[i])
  {
    seq(|s|, i requires 0 <= i < |s| => LowerChar(s[i]))
  }

  function UpperChar(c: char): char
  {
    if 'a' <= c <= 'z' then (c as int - 32) as char else c
  }

  /** `str.upper` on ASCII letters; every other character is kept. */
  function Upper(s: string): (r: string)
    ensures |r| == |s|
    ensures forall i :: 0 <= i < |s| ==> r[i] == UpperChar(s[i])
  {
    seq(|s|, i requires 0 <= i < |s| => UpperChar(s[i]))
  }

  // ---------------------------------------------------------------- strip

  function LStrip(s: string): (r: string)
    ensures r == [] || !IsSpace(r[0])
    ensures |r| <= |s| && r == s[|s| - |r|..]
    ensures AllSpace(s[..|s| - |r|])
  {
    if s != [] && IsSpace(s[0]) then LStrip(s[1..]) else s
  }

  function RStrip(s: string): (r: string)
    ensures r == [] || !IsSpace(r[|r| - 1])
    ensures |r| <= |s| && r == s[..|r|]
    ensures AllSpace(s[|r|..])
  {
    if s != [] && IsSpace(s[|s| - 1]) then RStrip(s[..|s| - 1]) else s
  }

  predicate IsStripped(s: string)
  {
    s == [] || (!IsSpace(s[0]) && !IsSpace(s[|s| - 1]))
  }

  /** `str.strip()`: the longest infix whose ends are not whitespace, once all-space ends are removed. */
  function Strip(s: string): (r: string)
    ensures IsStripped(r)
    ensures |r| <= |s|
  {
    RStrip(LStrip(s))
  }

  lemma {:induction false} LStripPadded(pre: string, t: string)
    requires AllSpace(pre)
    requires t == [] || !IsSpace(t[0])
    ensures LStrip(pre + t) == t
  {
    if pre != [] {
      assert (pre + t)[1..] == pre[1..] + t;
      LStripPadded(pre[1..], t);
    } else {
      assert pre + t == t;
    }
  }

  lemma {:induction false} RStripPadded(t: string, post: string)
    requires AllSpace(post)
    requires t == [] || !IsSpace(t[|t| - 1])
    ensures RStrip(t + post) == t
  {
    if post != [] {
      assert (t + post)[..|t + post| - 1] == t + post[..|post| - 1];
      RStripPadded(t, post[..|post| - 1]);
    } else {
      assert t + post == t;
    }
  }

  /** Stripping whitespace padding off a stripped string gives that string back. */
  lemma StripPadded(pre: string, s: string, post: string)
    requires AllSpace(pre) && AllSpace(post) && IsStripped(s)
    ensures Strip(pre + s + post) == s
  {
    if s == [] {
      assert pre + s + post == pre + post;
      LStripPadded(pre + post, []);
      assert pre + post + [] == pre + post;
    } else {
      assert pre + s + post == pre + (s + post);
      LStripPadded(pre, s + post);
      RStripPadded(s, post);
    }
  }

  /** The blank after a `key:` separator is stripped off a stripped value. */
  lemma StripAfterBlank(s: string)
    requires IsStripped(s)
    ensures Strip(" " + s) == s
  {
    assert AllSpace(" ") by { assert IsSpace(" "[0]); }
    LStripPadded(" ", s);
    RStripPadded(s, []);
    assert s + [] == s;
  }

  lemma StripStripped(s: string)
    requires IsStripped(s)
    ensures Strip(s) == s
  {
    StripPadded([], s, []);
    assert [] + s + [] == s;
  }

  // ---------------------------------------------------------------- search

  predicate StartsWith(s: string, p: string)
  {
    |p| <= |s| && s[..|p|] == p
  }

  predicate EndsWith(s: string, p: string)
  {
    |p| <= |s| && s[|s| - |p|..] == p
  }

  lemma StartsWithAppend(x: string, y: string)
    ensures StartsWith(x + y, x)
  {
    assert (x + y)[..|x|] == x;
  }

  lemma EndsWithAppend(x: string, y: string)
    ensures EndsWith(x + y, y)
  {
    assert (x + y)[|x + y| - |y|..] == y;
  }

  /** A common start keeps a prefix a prefix. */
  lemma StartsWithExtend(a: string, b: string, c: string)
    requires StartsWith(b, c)
    ensures StartsWith(a + b, a + c)
  {
    assert (a + b)[..|a + c|] == a + b[..|c|];
  }

  predicate OccursAt(s: string, pat: string, i: int)
  {
    0 <= i && i + |pat| <= |s| && s[i..i + |pat|] == pat
  }

  /** Python's `pat in s`. */
  predicate Contains(s: string, pat: string)
  {
    exists i :: 0 <= i <= |s| && OccursAt(s, pat, i)
  }

  function FindFrom(s: string, pat: string, i: nat): (r: Option<nat>)
    requires i <= |s|
    ensures r.Some? ==> i <= r.value && OccursAt(s, pat, r.value)
    ensures r.Some? ==> forall j :: i <= j < r.value ==> !OccursAt(s, pat, j)
    ensures r.None? ==> forall j :: i <= j ==> !OccursAt(s, pat, j)
    decreases |s| - i
  {
    if OccursAt(s, pat, i) then Some(i)
    else if i == |s| then None
    else FindFrom(s, pat, i + 1)
  }

  /** `str.find`, with `None` for Python's `-1`: the first index at which `pat` occurs. */
  function Find(s: string, pat: string): (r: Option<nat>)
    ensures r.None? <==> !Contains(s, pat)
    ensures r.Some? ==> OccursAt(s, pat, r.value) && forall j :: 0 <= j < r.value ==> !OccursAt(s, pat, j)
  {
    FindFrom(s, pat, 0)
  }

  /** An occurrence that is preceded by a separator character absent from the pattern is found first. */
  lemma FindAfterSeparator(x: string, c: char, pat: string, z: string)
    requires c !in pat && |pat| > 0
    requires !Contains(x, pat)
    ensures Find(x + [c] + pat + z, pat) == Some(|x| + 1)
  {
    var s := x + [c] + pat + z;
    assert OccursAt(s, pat, |x| + 1) by {
      assert s[|x| + 1..|x| + 1 + |pat|] == pat;
    }
    forall j | 0 <= j < |x| + 1
      ensures !OccursAt(s, pat, j)
    {
      if j + |pat| <= |x| {
        assert s[j..j + |pat|] == x[j..j + |pat|];
        assert !OccursAt(x, pat, j);
      } else if j + |pat| <= |s| {
        assert s[j..j + |pat|][|x| - j] == c;
      }
    }
  }

  /** A pattern whose first character does not occur in `x` is first found right after `x`. */
  lemma FindAfterFreePrefix(x: string, pat: string, z: string)
    requires |pat| > 0 && pat[0] !in x
    ensures Find(x + pat + z, pat) == Some(|x|)
  {
    var s := x + pat + z;
    assert s[|x|..|x| + |pat|] == pat;
    assert OccursAt(s, pat, |x|);
    forall j | 0 <= j < |x|
      ensures !OccursAt(s, pat, j)
    {
      if j + |pat| <= |s| {
        assert s[j..j + |pat|][0] == x[j];
      }
    }
    var r := Find(s, pat);
    assert r.Some?;
    assert r.value <= |x|;
  }

  /** A pattern without the separator character occurs in `x + [c] + y` only if it occurs in `x` or in `y`. */
  lemma NoOccurrenceAcross(x: string, c: char, y: string, pat: string)
    requires c !in pat && |pat| > 0
    requires !Contains(x, pat) && !Contains(y, pat)
    ensures !Contains(x + [c] + y, pat)
  {
    var s := x + [c] + y;
    forall j | 0 <= j <= |s|
      ensures !OccursAt(s, pat, j)
    {
      if j + |pat| <= |x| {
        assert s[j..j + |pat|] == x[j..j + |pat|];
        assert !OccursAt(x, pat, j);
      } else if |x| < j {
        if j + |pat| <= |s| {
          assert s[j..j + |pat|] == y[j - |x| - 1..j - |x| - 1 + |pat|];
          assert !OccursAt(y, pat, j - |x| - 1);
        }
      } else if j + |pat| <= |s| {
        assert s[j..j + |pat|][|x| - j] == c;
      }
    }
  }

  lemma NoOccurrenceInShort(s: string, pat: string)
    requires |s| < |pat|
    ensures !Contains(s, pat)
  {
  }

  // ---------------------------------------------------------------- join and split

  /** `sep.join(parts)`. */
  function Join(sep: string, parts: seq<string>): string
  {
    if |parts| == 0 then ""
    else if |parts| == 1 then parts[0]
    else parts[0] + sep + Join(sep, parts[1..])
  }

  lemma {:induction false} JoinAppend(sep: string, parts: seq<string>, p: string)
    ensures Join(sep, parts + [p]) == if parts == [] then p else Join(sep, parts) + sep + p
  {
    if |parts| == 0 {
      assert parts + [p] == [p];
    } else if |parts| == 1 {
      assert parts + [p] == [parts[0], p];
    } else {
      assert (parts + [p])[1..] == parts[1..] + [p];
      JoinAppend(sep, parts[1..], p);
    }
  }

  lemma JoinCons(sep: string, p: string, parts: seq<string>)
    requires parts != []
    ensures Join(sep, [p] + parts) == p + sep + Join(sep, parts)
  {
    assert ([p] + parts)[1..] == parts;
  }

  /** A join is empty exactly when every part is empty and there is at most one. */
  lemma {:induction false} JoinEmpty(sep: string, parts: seq<string>)
    requires |sep| > 0
    ensures Join(sep, parts) == "" <==> |parts| == 0 || (|parts| == 1 && parts[0] == "")
  {
    if |parts| > 1 {
      assert |Join(sep, parts)| >= |sep|;
    }
  }

  lemma ContainsInLeft(x: string, y: string, pat: string)
    requires Contains(x, pat)
    ensures Contains(x + y, pat)
  {
    var i :| 0 <= i <= |x| && OccursAt(x, pat, i);
    assert (x + y)[i..i + |pat|] == x[i..i + |pat|];
    assert OccursAt(x + y, pat, i);
  }

  lemma ContainsInRight(x: string, y: string, pat: string)
    requires Contains(y, pat)
    ensures Contains(x + y, pat)
  {
    var i :| 0 <= i <= |y| && OccursAt(y, pat, i);
    assert (x + y)[|x| + i..|x| + i + |pat|] == y[i..i + |pat|];
    assert OccursAt(x + y, pat, |x| + i);
  }

  lemma ContainsSelf(s: string)
    ensures Contains(s, s)
  {
    assert OccursAt(s, s, 0);
  }

  lemma ContainsTrans(a: string, b: string, c: string)
    requires Contains(a, b) && Contains(b, c)
    ensures Contains(a, c)
  {
    var i :| 0 <= i <= |a| && OccursAt(a, b, i);
    var j :| 0 <= j <= |b| && OccursAt(b, c, j);
    forall k | 0 <= k < |c|
      ensures a[i + j + k] == c[k]
    {
      assert b[j..j + |c|][k] == c[k];
      assert a[i..i + |b|][j + k] == b[j + k];
    }
    assert a[i + j..i + j + |c|] == c;
    assert OccursAt(a, c, i + j);
  }

  lemma ContainsMiddle(x: string, y: string, z: string)
    ensures Contains(x + y + z, y)
  {
    assert (x + y + z)[|x|..|x| + |y|] == y;
    assert OccursAt(x + y + z, y, |x|);
  }

  /** Every part occurs in the joined string. */
  lemma {:induction false} JoinContainsPart(sep: string, parts: seq<string>, i: nat)
    requires i < |parts|
    ensures Contains(Join(sep, parts), parts[i])
  {
    if |parts| == 1 {
      ContainsSelf(parts[0]);
    } else if i == 0 {
      ContainsSelf(parts[0]);
      ContainsInLeft(parts[0], sep + Join(sep, parts[1..]), parts[0]);
      assert parts[0] + sep + Join(sep, parts[1..]) == parts[0] + (sep + Join(sep, parts[1..]));
    } else {
      JoinContainsPart(sep, parts[1..], i - 1);
      ContainsInRight(parts[0] + sep, Join(sep, parts[1..]), parts[i]);
    }
  }

  /** Every part after a fixed head occurs in the joined string. */
  lemma JoinContainsLater(sep: string, head: seq<string>, rest: seq<string>, i: nat)
    requires i < |rest|
    ensures Contains(Join(sep, head + rest), rest[i])
  {
    assert (head + rest)[|head| + i] == rest[i];
    JoinContainsPart(sep, head + rest, |head| + i);
  }

  /** `s.split(sep)` for a non-empty separator. */
  function Split(s: string, sep: string): (r: seq<string>)
    requires |sep| > 0
    ensures |r| >= 1
    decreases |s|
  {
    match Find(s, sep)
    case None => [s]
    case Some(i) => [s[..i]] + Split(s[i + |sep|..], sep)
  }

  /** When the separator occurs, the split has a second piece: the text between its first two occurrences. */
  lemma SplitSecondPiece(x: string, sep: string, rest: string)
    requires |sep| > 0 && sep[0] !in x
    ensures |Split(x + sep + rest, sep)| >= 2
    ensures Split(x + sep + rest, sep)[0] == x && Split(x + sep + rest, sep)[1] == Split(rest, sep)[0]
  {
    var s := x + sep + rest;
    FindAfterFreePrefix(x, sep, rest);
    assert s[..|x|] == x && s[|x| + |sep|..] == rest;
  }

  /** A string that contains the separator splits into at least two pieces. */
  lemma {:induction false} SplitWhenContains(s: string, sep: string)
    requires |sep| > 0 && Contains(s, sep)
    ensures |Split(s, sep)| >= 2
  {
    var i := Find(s, sep).value;
    var tail := Split(s[i + |sep|..], sep);
    assert Split(s, sep) == [s[..i]] + tail;
  }

  /** `s.split(sep, n)`: at most `n` splits, the rest of the string kept whole in the last part. */
  function SplitN(s: string, sep: string, n: nat): (r: seq<string>)
    requires |sep| > 0
    ensures 1 <= |r| <= n + 1
    decreases n
  {
    if n == 0 then [s]
    else match Find(s, sep)
      case None => [s]
      case Some(i) => [s[..i]] + SplitN(s[i + |sep|..], sep, n - 1)
  }

  /** Joining the pieces of a split with the same separator gives the original string. */
  lemma {:induction false} JoinSplit(s: string, sep: string)
    requires |sep| > 0
    ensures Join(sep, Split(s, sep)) == s
    decreases |s|
  {
    var f := Find(s, sep);
    if f.Some? {
      var i := f.value;
      var rest := s[i + |sep|..];
      var tail := Split(rest, sep);
      JoinSplit(rest, sep);
      assert Split(s, sep) == [s[..i]] + tail;
      JoinCons(sep, s[..i], tail);
      assert s == s[..i] + sep + rest by {
        assert s[i..i + |sep|] == sep;
      }
    }
  }

  /** No piece of a split contains the separator. */
  lemma {:induction false} SplitPiecesFree(s: string, sep: string)
    requires |sep| > 0
    ensures forall p :: p in Split(s, sep) ==> !Contains(p, sep)
    decreases |s|
  {
    match Find(s, sep)
    case None =>
    case Some(i) =>
      SplitPiecesFree(s[i + |sep|..], sep);
      assert Split(s, sep) == [s[..i]] + Split(s[i + |sep|..], sep);
      forall j | OccursAt(s[..i], sep, j)
        ensures false
      {
        assert s[..i][j..j + |sep|] == s[j..j + |sep|];
        assert OccursAt(s, sep, j);
      }
  }

  /** Splitting lines joined by a one-character separator that none of them contains gives the lines back. */
  lemma {:induction false} SplitJoinChar(parts: seq<string>, c: char)
    requires |parts| >= 1
    requires forall k :: 0 <= k < |parts| ==> c !in parts[k]
    ensures Split(Join([c], parts), [c]) == parts
  {
    var s := Join([c], parts);
    if |parts| == 1 {
      NoCharNoOccurrence(s, c);
    } else {
      assert s == parts[0] + [c] + Join([c], parts[1..]);
      assert c !in parts[0];
      NoCharNoOccurrence(parts[0], c);
      FindAfterSeparatorChar(parts[0], c, Join([c], parts[1..]));
      assert s[|parts[0]| + 1..] == Join([c], parts[1..]);
      assert s[..|parts[0]|] == parts[0];
      SplitJoinChar(parts[1..], c);
    }
  }

  lemma NoCharNoOccurrence(s: string, c: char)
    requires c !in s
    ensures !Contains(s, [c])
  {
    forall j | 0 <= j <= |s|
      ensures !OccursAt(s, [c], j)
    {
      if j + 1 <= |s| {
        assert s[j..j + 1] == [s[j]];
        assert s[j] in s;
      }
    }
  }

  lemma FindAfterSeparatorChar(x: string, c: char, z: string)
    requires !Contains(x, [c])
    ensures Find(x + [c] + z, [c]) == Some(|x|)
  {
    var s := x + [c] + z;
    assert OccursAt(s, [c], |x|) by {
      assert s[|x|..|x| + 1] == [c];
    }
    forall j | 0 <= j < |x|
      ensures !OccursAt(s, [c], j)
    {
      if OccursAt(s, [c], j) {
        assert s[j..j + 1] == x[j..j + 1];
        assert OccursAt(x, [c], j);
      }
    }
  }

  // ---------------------------------------------------------------- slicing

  /** A prefix one element longer is the prefix and that element. */
  lemma PrefixSnoc<T>(s: seq<T>, i: nat)
    requires i < |s|
    ensures s[..i + 1] == s[..i] + [s[i]] && s[..i + 1][..i] == s[..i]
  {
  }

  /** Appending leaves every prefix of the original unchanged. */
  lemma PrefixOfSnoc<T>(s: seq<T>, x: T, i: nat)
    requires i <= |s|
    ensures (s + [x])[..i] == s[..i] && (s + [x])[..|s|] == s
  {
  }

  /** Python's `s[:n]`: a negative `n` counts from the end, and the slice never fails. */
  function Take<T>(s: seq<T>, n: int): (r: seq<T>)
    ensures n >= 0 ==> |r| == if n < |s| then n else |s|
    ensures n < 0 ==> |r| == if |s| + n > 0 then |s| + n else 0
    ensures r == s[..|r|]
  {
    if n >= 0 then (if n < |s| then s[..n] else s)
    else (if |s| + n > 0 then s[..|s| + n] else [])
  }

  // ---------------------------------------------------------------- integers

  function DigitChar(d: nat): (c: char)
    requires d < 10
    ensures IsDigit(c)
  {
    ('0' as int + d) as char
  }

  function DigitValue(c: char): (d: nat)
    requires IsDigit(c)
    ensures d < 10
  {
    c as int - '0' as int
  }

  /** `str(n)` for a natural number: its decimal digits, most significant first. */
  function NatToString(n: nat): (r: string)
    ensures |r| >= 1 && AllDigits(r)
    decreases n
  {
    if n < 10 then [DigitChar(n)] else NatToString(n / 10) + [DigitChar(n % 10)]
  }

  /** The number a non-empty digit string denotes. */
  function DigitsValue(s: string): nat
    requires AllDigits(s)
  {
    if s == [] then 0 else DigitsValue(s[..|s| - 1]) * 10 + DigitValue(s[|s| - 1])
  }

  lemma {:induction false} DigitsValueOfNatToString(n: nat)
    ensures DigitsValue(NatToString(n)) == n
    decreases n
  {
    if n >= 10 {
      var s := NatToString(n);
      assert s[..|s| - 1] == NatToString(n / 10);
      DigitsValueOfNatToString(n / 10);
    }
  }

  /** `str(n)` for any Python int. */
  function IntToString(n: int): string
  {
    if n < 0 then "-" + NatToString(-n) else NatToString(n)
  }

  /** A run of decimal digits, as `int` accepts it after the sign. */
  function ParseDigits(d: string): (r: Option<nat>)
    ensures r.Some? <==> d != [] && AllDigits(d)
  {
    if d != [] && AllDigits(d) then Some(DigitsValue(d)) else None
  }

  /** `int(s)` on a decimal literal: surrounding whitespace, an optional sign, then digits; `None` is `ValueError`. */
  function ParseInt(s: string): (r: Option<int>)
    ensures r.Some? ==> Strip(s) != []
  {
    ParseStripped(Strip(s))
  }

  /** `int` on text with no surrounding whitespace. */
  function ParseStripped(t: string): (r: Option<int>)
    ensures r.Some? ==> t != []
  {
    if t == [] then None
    else if t[0] == '-' then
      (match ParseDigits(t[1..]) case Some(v) => Some(-(v as int)) case None => None)
    else if t[0] == '+' then
      (match ParseDigits(t[1..]) case Some(v) => Some(v) case None => None)
    else
      (match ParseDigits(t) case Some(v) => Some(v) case None => None)
  }



  lemma DigitsStripped(sign: string, d: string)
    requires sign == "" || sign == "-"
    requires d != [] && AllDigits(d)
    ensures IsStripped(sign + d)
  {
    var s := sign + d;
    assert s[|s| - 1] == d[|d| - 1];
    assert s[0] == '-' || s[0] == d[0];
  }

  /** The decimal form of a natural number reads back as that number. */
  lemma ParseDigitsOfNat(m: nat)
    ensures ParseDigits(NatToString(m)) == Some(m)
  {
    DigitsValueOfNatToString(m);
  }

  lemma ParseStrippedSigned(d: string, v: nat)
    requires ParseDigits(d) == Some(v)
    ensures ParseStripped("-" + d) == Some(-(v as int))
    ensures IsDigit(d[0]) && ParseStripped(d) == Some(v)
  {
    assert ("-" + d)[1..] == d;
    assert IsDigit(d[0]);
  }

  /** A minus sign followed by digits parses to the negated number they denote. */
  lemma ParseIntNegative(d: string, v: nat)
    requires ParseDigits(d) == Some(v)
    ensures ParseInt("-" + d) == Some(-(v as int))
  {
    DigitsStripped("-", d);
    StripStripped("-" + d);
    ParseStrippedSigned(d, v);
  }

  /** Digits alone parse to the number they denote. */
  lemma ParseIntDigits(d: string, v: nat)
    requires ParseDigits(d) == Some(v)
    ensures ParseInt(d) == Some(v)
  {
    DigitsStripped("", d);
    assert "" + d == d;
    StripStripped(d);
    ParseStrippedSigned(d, v);
  }

  /** `int(str(n)) == n`. */
  lemma ParseIntOfIntToString(n: int)
    ensures ParseInt(IntToString(n)) == Some(n)
  {
    var m: nat := if n < 0 then -n else n;
    var d := NatToString(m);
    ParseDigitsOfNat(m);
    if n < 0 {
      ParseIntNegative(d, m);
      assert IntToString(n) == "-" + d;
    } else {
      ParseIntDigits(d, m);
    }
  }


  /** Both values of a template with two fields appear in the filled text. */
  lemma FilledShowsTwo(t0: string, a: string, t1: string, b: string, t2: string)
    ensures Contains(t0 + a + t1 + b + t2, a) && Contains(t0 + a + t1 + b + t2, b)
  {
    ContainsMiddle(t0, a, t1 + b + t2);
    assert t0 + a + (t1 + b + t2) == t0 + a + t1 + b + t2;
    ContainsMiddle(t0 + a + t1, b, t2);
  }

  /** All five values of a template with five fields appear in the filled text. */
  lemma FilledShowsFive(t0: string, a: string, t1: string, b: string, t2: string, c: string, t3: string,
                        d: string, t4: string, e: string, t5: string)
    ensures var s := t0 + a + t1 + b + t2 + c + t3 + d + t4 + e + t5;
      Contains(s, a) && Contains(s, b) && Contains(s, c) && Contains(s, d) && Contains(s, e)
  {
    var s := t0 + a + t1 + b + t2 + c + t3 + d + t4 + e + t5;
    var head := t0 + a + t1 + b + t2;
    assert s == head + c + t3 + d + (t4 + e + t5);
    FilledShowsTwo(head, c, t3, d, t4 + e + t5);
    assert s == head + (c + t3 + d + t4 + e + t5);
    FilledShowsTwo(t0, a, t1, b, t2);
    ContainsInLeft(head, c + t3 + d + t4 + e + t5, a);
    ContainsInLeft(head, c + t3 + d + t4 + e + t5, b);
    ContainsMiddle(t0 + a + t1 + b + t2 + c + t3 + d + t4, e, t5);
  }
}
