/**
 * String building blocks that the host provides to the formatter: decimal rendering of
 * integers (`String(n)` for a bigint or an array index), `Array.prototype.join`,
 * repeated `+=` on a string, and `JSON.stringify` of a string.
 */
module Text {
  import opened Wrappers

  predicate IsDigits(s: string) {
    |s| > 0 && forall i :: 0 <= i < |s| ==> '0' <= s[i] <= '9'
  }

  function DigitChar(d: nat): (c: char)
    requires d < 10
    ensures '0' <= c <= '9' && (c - '0') as nat == d
  {
    "0123456789"[d]
  }

  /** The decimal digits of `n`, most significant first, without leading zeros. */
  function Digits(n: nat): (s: string)
    ensures IsDigits(s)
    ensures |s| > 1 ==> s[0] != '0'
    decreases n
  {
    if n < 10 then [DigitChar(n)] else Digits(n / 10) + [DigitChar(n % 10)]
  }

  /** `String(i)` for an integer-valued bigint or a non-negative array index. */
  function Decimal(i: int): (s: string)
    ensures |s| > 0
    ensures s[0] == '-' <==> i < 0
  {
    if i < 0 then "-" + Digits(-i) else Digits(i)
  }

  /** The number a string of decimal digits denotes. */
  function DigitsValue(s: string): nat
    requires IsDigits(s) || s == []
  {
    if s == [] then 0 else DigitsValue(s[..|s| - 1]) * 10 + (s[|s| - 1] - '0') as nat
  }

  /** Reads an optionally negative decimal integer; the reference against which `Decimal` is checked. */
  function ParseDecimal(s: string): Option<int> {
    if |s| > 0 && s[0] == '-' then
      if IsDigits(s[1..]) then Some(0 - DigitsValue(s[1..]) as int) else None
    else if IsDigits(s) then Some(DigitsValue(s) as int)
    else None
  }

  lemma {:induction false} DigitsRoundTrip(n: nat)
    ensures DigitsValue(Digits(n)) == n
    decreases n
  {
    if n >= 10 {
      DigitsRoundTrip(n / 10);
      var s := Digits(n);
      assert s[..|s| - 1] == Digits(n / 10);
    }
  }

  /** A digit string reads back as its value. */
  lemma ParseDigits(d: string)
    requires IsDigits(d)
    ensures ParseDecimal(d) == Some(DigitsValue(d) as int)
  {
    assert d[0] != '-';
  }

  /** A minus sign before a digit string reads back as the negated value. */
  lemma ParseNegative(d: string)
    requires IsDigits(d)
    ensures ParseDecimal("-" + d) == Some(0 - DigitsValue(d) as int)
  {
    var s := "-" + d;
    assert s[0] == '-' && s[1..] == d;
  }

  /** Rendering an integer in decimal and reading it back gives the integer. */
  lemma DecimalRoundTrip(i: int)
    ensures ParseDecimal(Decimal(i)) == Some(i)
  {
    var n: nat := if i < 0 then -i else i;
    var d := Digits(n);
    assert DigitsValue(d) == n by {
      DigitsRoundTrip(n);
    }
    if i < 0 {
      assert Decimal(i) == "-" + d;
      ParseNegative(d);
    } else {
      assert Decimal(i) == d;
      ParseDigits(d);
    }
  }

  /** Two integers render alike exactly when they are equal. */
  lemma DecimalInjective(i: int, j: int)
    ensures Decimal(i) == Decimal(j) <==> i == j
  {
    DecimalRoundTrip(i);
    DecimalRoundTrip(j);
  }

  /** The strings of `ss` one after the other, as repeated `r += s` builds them. */
  function Concat(ss: seq<string>): string {
    if ss == [] then "" else Concat(ss[..|ss| - 1]) + ss[|ss| - 1]
  }

  lemma {:induction false} ConcatAppend(a: seq<string>, b: seq<string>)
    ensures Concat(a + b) == Concat(a) + Concat(b)
    decreases |b|
  {
    if b == [] {
      assert a + b == a;
    } else {
      ConcatAppend(a, b[..|b| - 1]);
      assert (a + b)[..|a + b| - 1] == a + b[..|b| - 1];
      assert (a + b)[|a + b| - 1] == b[|b| - 1];
    }
  }

  /** The text of a first string followed by more strings. */
  lemma ConcatCons(first: string, rest: seq<string>)
    ensures Concat([first] + rest) == first + Concat(rest)
  {
    ConcatAppend([first], rest);
    assert [first][..0] == [];
  }

  lemma ConcatTwo(a: string, b: string)
    ensures Concat([a, b]) == a + b
  {
    assert [a, b][..1] == [a];
    assert [a][..0] == [];
    assert Concat([a]) == "" + a;
    assert "" + a == a;
  }

  /** `parts.join(sep)`: the parts with `sep` between each two neighbours. */
  function Join(parts: seq<string>, sep: string): string {
    if parts == [] then ""
    else if |parts| == 1 then parts[0]
    else parts[0] + sep + Join(parts[1..], sep)
  }

  /** Concatenating is joining with the empty separator. */
  lemma {:induction false} ConcatIsJoin(ss: seq<string>)
    ensures Concat(ss) == Join(ss, "")
    decreases |ss|
  {
    if |ss| > 1 {
      var init := ss[..|ss| - 1];
      ConcatIsJoin(init);
      JoinAppend(init, [ss[|ss| - 1]], "");
      assert init + [ss[|ss| - 1]] == ss;
    } else if |ss| == 1 {
      assert ss[..0] == [];
    }
  }

  /** Joining with the empty separator and one more part appends that part. */
  lemma JoinNothingAppend(parts: seq<string>, part: string)
    ensures Join(parts + [part], "") == Join(parts, "") + part
  {
    if parts == [] {
      assert parts + [part] == [part];
    } else {
      JoinAppend(parts, [part], "");
      assert Join(parts, "") + "" == Join(parts, "");
    }
  }

  lemma AppendRegroup(a: string, b: string, c: string, d: string)
    ensures a + (b + (c + d)) == a + b + c + d
  {
  }

  /** Joining two non-empty lists is joining each and putting one separator between them. */
  lemma {:induction false} JoinAppend(a: seq<string>, b: seq<string>, sep: string)
    requires a != [] && b != []
    ensures Join(a + b, sep) == Join(a, sep) + sep + Join(b, sep)
    decreases |a|
  {
    var ab := a + b;
    assert ab[0] == a[0] && |ab| > 1;
    if |a| > 1 {
      var tail := a[1..];
      assert ab[1..] == tail + b;
      assert Join(ab, sep) == a[0] + sep + Join(tail + b, sep);
      assert Join(tail + b, sep) == Join(tail, sep) + sep + Join(b, sep) by {
        JoinAppend(tail, b, sep);
      }
      assert Join(a, sep) == a[0] + sep + Join(tail, sep);
    } else {
      assert ab[1..] == b;
      assert Join(a, sep) == a[0];
    }
  }

  /** The lower-case hexadecimal digit of `d`. */
  function HexDigit(d: nat): char
    requires d < 16
  {
    "0123456789abcdef"[d]
  }

  /** Whether `JSON.stringify` writes `c` as an escape sequence rather than as itself. */
  predicate NeedsEscape(c: char) {
    c == '"' || c == '\\' || c < ' '
  }

  /** The text `JSON.stringify` writes for one character of a string. */
  function EscapeChar(c: char): (r: string)
    ensures NeedsEscape(c) <==> r != [c]
    ensures NeedsEscape(c) ==> |r| >= 2 && r[0] == '\\'
  {
    if c == '"' then "\\\""
    else if c == '\\' then "\\\\"
    else if c as int == 8 then "\\b"
    else if c as int == 12 then "\\f"
    else if c == '\n' then "\\n"
    else if c == '\r' then "\\r"
    else if c == '\t' then "\\t"
    else if c < ' ' then "\\u00" + [HexDigit(c as int / 16), HexDigit(c as int % 16)]
    else [c]
  }

  function Escape(s: string): string {
    if s == [] then "" else Escape(s[..|s| - 1]) + EscapeChar(s[|s| - 1])
  }

  /** `JSON.stringify(s)` for a string `s` (a sequence of Unicode scalar values). */
  function JsonQuote(s: string): (r: string)
    ensures |r| >= 2 && r[0] == '"' && r[|r| - 1] == '"'
  {
    "\"" + Escape(s) + "\""
  }

  /** A string with nothing to escape is quoted as it is. */
  lemma {:induction false} EscapePlain(s: string)
    requires forall i :: 0 <= i < |s| ==> !NeedsEscape(s[i])
    ensures Escape(s) == s
  {
    if s != [] {
      EscapePlain(s[..|s| - 1]);
      assert s[..|s| - 1] + [s[|s| - 1]] == s;
    }
  }

  lemma JsonQuotePlain(s: string)
    requires forall i :: 0 <= i < |s| ==> !NeedsEscape(s[i])
    ensures JsonQuote(s) == "\"" + s + "\""
  {
    EscapePlain(s);
  }
}
