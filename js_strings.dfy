/**
 * The JavaScript string built-ins the ledger relies on: `trim`, `split`
 * with a one-character separator, and `parseInt` without a radix.
 */
module JsStrings {

  import opened Wrappers

  /** ECMAScript WhiteSpace and LineTerminator code points, the set `trim` strips. */
  predicate IsSpace(c: char)
  {
    c in {'\t', '\n', '\U{000B}', '\U{000C}', '\r', ' ', '\U{00A0}', '\U{1680}',
          '\U{2000}', '\U{2001}', '\U{2002}', '\U{2003}', '\U{2004}', '\U{2005}',
          '\U{2006}', '\U{2007}', '\U{2008}', '\U{2009}', '\U{200A}',
          '\U{2028}', '\U{2029}', '\U{202F}', '\U{205F}', '\U{3000}', '\U{FEFF}'}
  }

  predicate AllSpace(s: string)
  {
    forall i :: 0 <= i < |s| ==> IsSpace(s[i])
  }

  /** Drops leading white space: what is left is a suffix that does not start with it. */
  function TrimStart(s: string): (r: string)
    ensures |r| <= |s| && r == s[|s| - |r|..]
    ensures AllSpace(s[..|s| - |r|])
    ensures r == [] || !IsSpace(r[0])
  {
    if s != [] && IsSpace(s[0]) then TrimStart(s[1..]) else s
  }

  /** Drops trailing white space: what is left is a prefix that does not end with it. */
  function TrimEnd(s: string): (r: string)
    ensures |r| <= |s| && r == s[..|r|]
    ensures AllSpace(s[|r|..])
    ensures r == [] || !IsSpace(r[|r| - 1])
  {
    if s != [] && IsSpace(s[|s| - 1]) then TrimEnd(s[..|s| - 1]) else s
  }

  /** `s.trim()` */
  function Trim(s: string): string
  {
    TrimEnd(TrimStart(s))
  }

  /** `s.split(sep)` for a one-character separator: the pieces between separators. */
  function Split(s: string, sep: char): (parts: seq<string>)
    ensures |parts| >= 1
    ensures forall i :: 0 <= i < |parts| ==> sep !in parts[i]
  {
    if s == [] then [""]
    else
      var rest := Split(s[1..], sep);
      if s[0] == sep then [""] + rest
      else [[s[0]] + rest[0]] + rest[1..]
  }

  /** `parts.join(sep)`, the inverse of `Split`. */
  function Join(parts: seq<string>, sep: char): string
  {
    if parts == [] then ""
    else if |parts| == 1 then parts[0]
    else parts[0] + [sep] + Join(parts[1..], sep)
  }

  lemma {:induction false} SplitJoin(s: string, sep: char)
    ensures Join(Split(s, sep), sep) == s
  {
    if s != [] {
      var rest := Split(s[1..], sep);
      SplitJoin(s[1..], sep);
      if s[0] == sep {
        assert Split(s, sep)[1..] == rest;
      } else if |rest| > 1 {
        assert Split(s, sep)[1..] == rest[1..];
      }
    }
  }

  /** A string splits into more than one piece exactly when it holds the separator. */
  lemma {:induction false} SplitCount(s: string, sep: char)
    ensures |Split(s, sep)| >= 2 <==> sep in s
  {
    if s != [] {
      SplitCount(s[1..], sep);
      assert s == [s[0]] + s[1..];
    }
  }

  /** The piece after a trailing separator is empty. */
  lemma {:induction false} SplitTrailing(s: string, sep: char)
    requires s != [] && s[|s| - 1] == sep
    ensures Split(s, sep)[|Split(s, sep)| - 1] == ""
  {
    if |s| > 1 {
      SplitTrailing(s[1..], sep);
    }
  }

  /** A text without the separator is one piece. */
  lemma {:induction false} SplitNoSep(x: string, sep: char)
    requires sep !in x
    ensures Split(x, sep) == [x]
  {
    if x != [] {
      SplitNoSep(x[1..], sep);
      assert x == [x[0]] + x[1..];
    }
  }

  /** The first separator ends the first piece; the rest splits on its own. */
  lemma {:induction false} SplitCons(x: string, sep: char, z: string)
    requires sep !in x
    ensures Split(x + [sep] + z, sep) == [x] + Split(z, sep)
  {
    if x != [] {
      SplitCons(x[1..], sep, z);
      assert (x + [sep] + z)[1..] == x[1..] + [sep] + z;
      assert [x[0]] + x[1..] == x;
    } else {
      assert [] + [sep] + z == [sep] + z;
      assert ([sep] + z)[1..] == z;
    }
  }

  /** Two pieces joined by the separator split back into those two pieces. */
  lemma SplitTwo(x: string, sep: char, y: string)
    requires sep !in x && sep !in y
    ensures Split(x + [sep] + y, sep) == [x, y]
  {
    SplitCons(x, sep, y);
    SplitNoSep(y, sep);
  }

  /** Pieces without the separator, joined by it, split back into the same pieces. */
  lemma {:induction false} JoinSplit(parts: seq<string>, sep: char)
    requires |parts| >= 1 && forall i :: 0 <= i < |parts| ==> sep !in parts[i]
    ensures Split(Join(parts, sep), sep) == parts
  {
    if |parts| == 1 {
      SplitNoSep(parts[0], sep);
    } else {
      JoinSplit(parts[1..], sep);
      SplitCons(parts[0], sep, Join(parts[1..], sep));
      assert [parts[0]] + parts[1..] == parts;
    }
  }

  /** A joined text is at least as long as its first piece. */
  lemma JoinLength(parts: seq<string>, sep: char)
    requires |parts| >= 1
    ensures |Join(parts, sep)| >= |parts[0]|
  {
  }

  /** Trimming the end drops exactly a trailing run of white space. */
  lemma {:induction false} TrimEndSkips(body: string, ws: string)
    requires AllSpace(ws)
    requires body == [] || !IsSpace(body[|body| - 1])
    ensures TrimEnd(body + ws) == body
  {
    if ws != [] {
      assert (body + ws)[..|body + ws| - 1] == body + ws[..|ws| - 1];
      TrimEndSkips(body, ws[..|ws| - 1]);
    } else {
      assert body + ws == body;
    }
  }

  /** A text that neither starts nor ends with white space is its own trim. */
  lemma TrimKeeps(s: string)
    requires s == [] || (!IsSpace(s[0]) && !IsSpace(s[|s| - 1]))
    ensures Trim(s) == s
  {
  }

  /** The value of `c` as a digit in base `radix` (10 or 16), if it is one. */
  function DigitValue(c: char, radix: nat): Option<nat>
  {
    if '0' <= c <= '9' then Some(c as nat - '0' as nat)
    else if radix == 16 && 'a' <= c <= 'f' then Some(c as nat - 'a' as nat + 10)
    else if radix == 16 && 'A' <= c <= 'F' then Some(c as nat - 'A' as nat + 10)
    else None
  }

  predicate AllDigits(s: string, radix: nat)
  {
    forall i :: 0 <= i < |s| ==> DigitValue(s[i], radix).Some?
  }

  /** The longest prefix of `s` made of digits. */
  function DigitPrefix(s: string, radix: nat): (d: string)
    ensures |d| <= |s| && d == s[..|d|]
    ensures AllDigits(d, radix)
    ensures |d| == |s| || DigitValue(s[|d|], radix).None?
  {
    if s != [] && DigitValue(s[0], radix).Some? then [s[0]] + DigitPrefix(s[1..], radix) else []
  }

  function DigitsValue(d: string, radix: nat): nat
    requires AllDigits(d, radix)
  {
    if d == [] then 0
    else DigitsValue(d[..|d| - 1], radix) * radix + DigitValue(d[|d| - 1], radix).value
  }

  /**
   * `parseInt(s)` with no radix: skip leading white space, take an optional
   * sign, then read a magnitude; no digits at all gives NaN, here `None`.
   */
  function ParseInt(s: string): Option<int>
  {
    ParseSigned(TrimStart(s))
  }

  function ParseSigned(t: string): Option<int>
  {
    if |t| > 0 && t[0] == '-' then
      (var m := ParseMagnitude(t[1..]); if m.Some? then Some(-(m.value as int)) else None)
    else if |t| > 0 && t[0] == '+' then
      (var m := ParseMagnitude(t[1..]); if m.Some? then Some(m.value as int) else None)
    else
      (var m := ParseMagnitude(t); if m.Some? then Some(m.value as int) else None)
  }

  /** Base 16 after "0x" or "0X", base 10 otherwise; the longest run of digits. */
  function ParseMagnitude(u: string): Option<nat>
  {
    var hex := |u| >= 2 && u[0] == '0' && (u[1] == 'x' || u[1] == 'X');
    var radix := if hex then 16 else 10;
    var digits := DigitPrefix(if hex then u[2..] else u, radix);
    if digits == [] then None else Some(DigitsValue(digits, radix))
  }

  /** `String(n)` for a natural number: its decimal digits, no leading zero. */
  function Decimal(n: nat): (s: string)
    ensures |s| >= 1 && AllDigits(s, 10)
    ensures |s| >= 2 ==> s[0] != '0'
  {
    if n < 10 then [('0' as nat + n) as char]
    else Decimal(n / 10) + [('0' as nat + n % 10) as char]
  }

  lemma {:induction false} DecimalValue(n: nat)
    ensures DigitsValue(Decimal(n), 10) == n
  {
    if n >= 10 {
      DecimalValue(n / 10);
      assert Decimal(n)[..|Decimal(n)| - 1] == Decimal(n / 10);
    }
  }

  lemma {:induction false} DigitPrefixStops(d: string, rest: string, radix: nat)
    requires AllDigits(d, radix)
    requires rest == [] || DigitValue(rest[0], radix).None?
    ensures DigitPrefix(d + rest, radix) == d
  {
    if d != [] {
      DigitPrefixStops(d[1..], rest, radix);
      assert (d + rest)[1..] == d[1..] + rest;
    }
  }

  /** The text `parseInt` may meet after a number without reading it as more digits or a hex prefix. */
  predicate EndsNumber(rest: string)
  {
    rest == [] || !('0' <= rest[0] <= '9' || rest[0] == 'x' || rest[0] == 'X')
  }

  /**
   * `parseInt` reads back the decimal text of a natural number, after any
   * leading white space and before any text that ends the number.
   */
  lemma ParseIntDecimal(n: nat, ws: string, rest: string)
    requires AllSpace(ws) && EndsNumber(rest)
    ensures ParseInt(ws + Decimal(n) + rest) == Some(n)
  {
    var u := Decimal(n) + rest;
    assert ws + Decimal(n) + rest == ws + u;
    assert u[0] == Decimal(n)[0];
    DigitNotSpace(Decimal(n)[0]);
    TrimStartSkips(ws, u);
    MagnitudeDecimal(n, rest);
    NoSign(u, n);
  }

  lemma NoSign(x: string, m: nat)
    requires ParseMagnitude(x) == Some(m)
    requires |x| > 0 && DigitValue(x[0], 10).Some?
    ensures ParseSigned(x) == Some(m)
  {
  }

  /** `parseInt` reads back the decimal text of a natural number. */
  lemma ParseDecimal(n: nat)
    ensures ParseInt(Decimal(n)) == Some(n)
  {
    ParseIntDecimal(n, "", "");
    assert "" + Decimal(n) + "" == Decimal(n);
  }

  /** The same for a negative number written with a leading minus sign. */
  lemma ParseIntNegative(n: nat, ws: string, rest: string)
    requires AllSpace(ws) && EndsNumber(rest)
    ensures ParseInt(ws + "-" + Decimal(n) + rest) == Some(-(n as int))
  {
    var u := "-" + (Decimal(n) + rest);
    assert ws + "-" + Decimal(n) + rest == ws + u;
    MinusNotSpace(u);
    TrimStartSkips(ws, u);
    MagnitudeDecimal(n, rest);
    MinusSign(Decimal(n) + rest, n);
  }

  lemma MinusNotSpace(u: string)
    requires |u| > 0 && u[0] == '-'
    ensures !IsSpace(u[0])
  {
  }

  lemma MinusSign(x: string, m: nat)
    requires ParseMagnitude(x) == Some(m)
    ensures ParseSigned("-" + x) == Some(-(m as int))
  {
    assert ("-" + x)[1..] == x;
  }

  lemma MagnitudeDecimal(m: nat, rest: string)
    requires EndsNumber(rest)
    ensures ParseMagnitude(Decimal(m) + rest) == Some(m)
  {
    var u := Decimal(m) + rest;
    if |Decimal(m)| == 1 {
      if |u| >= 2 { assert u[1] == rest[0]; }
    } else {
      assert u[0] == Decimal(m)[0];
    }
    assert rest == [] || DigitValue(rest[0], 10).None?;
    DigitPrefixStops(Decimal(m), rest, 10);
    DecimalValue(m);
  }

  lemma DigitNotSpace(c: char)
    requires DigitValue(c, 10).Some?
    ensures !IsSpace(c)
  {
  }

  lemma {:induction false} TrimStartSkips(ws: string, body: string)
    requires AllSpace(ws)
    requires body == [] || !IsSpace(body[0])
    ensures TrimStart(ws + body) == body
  {
    if ws != [] {
      assert (ws + body)[1..] == ws[1..] + body;
      TrimStartSkips(ws[1..], body);
    }
  }

}
