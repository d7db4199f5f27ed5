/** Decimal numbers and separated fields, as the links print and read them. */
module Text {
  import opened Prelude

  predicate IsDigit(c: char) {
    '0' <= c <= '9'
  }

  predicate AllDigits(s: string) {
    s == "" || (IsDigit(s[0]) && AllDigits(s[1..]))
  }

  predicate IsNumber(s: string) {
    s != "" && AllDigits(s)
  }

  /** The number a run of digits stands for, leading zeros and all. */
  function Value(s: string): nat
    requires AllDigits(s)
    decreases |s|
  {
    if s == "" then 0
    else
      AllDigitsSplit(s[..|s| - 1], s[|s| - 1..]);
      assert s == s[..|s| - 1] + s[|s| - 1..];
      10 * Value(s[..|s| - 1]) + (s[|s| - 1] as int - '0' as int)
  }

  lemma {:induction false} AllDigitsSplit(a: string, b: string)
    ensures AllDigits(a + b) <==> AllDigits(a) && AllDigits(b)
    ensures AllDigits(b) && |b| == 1 ==> IsDigit(b[0])
  {
    if a == "" {
      assert a + b == b;
    } else {
      AllDigitsSplit(a[1..], b);
      assert (a + b)[1..] == a[1..] + b;
    }
  }

  function Decimal(n: nat): string {
    if n < 10 then [('0' as int + n) as char] else Decimal(n / 10) + [('0' as int + n % 10) as char]
  }

  /** Printing then reading gives the number back. */
  lemma {:induction false} DecimalReads(n: nat)
    ensures IsNumber(Decimal(n)) && Value(Decimal(n)) == n
  {
    var last := ('0' as int + n % 10) as char;
    assert AllDigits([last]) by { assert [last][1..] == ""; }
    if n < 10 {
      assert Decimal(n) == [last] && [last][..0] == "";
    } else {
      DecimalReads(n / 10);
      AllDigitsSplit(Decimal(n / 10), [last]);
      var s := Decimal(n);
      assert s[..|s| - 1] == Decimal(n / 10) && s[|s| - 1] == last;
    }
  }

  lemma {:induction false} DigitsOnly(s: string, c: char)
    requires AllDigits(s) && !IsDigit(c)
    ensures c !in s
  {
    if s != "" { DigitsOnly(s[1..], c); }
  }

  /** The fields between separators; there is always one. */
  function Fields(s: string, sep: char): (r: seq<string>)
    ensures |r| > 0
  {
    if s == "" then [""]
    else if s[0] == sep then [""] + Fields(s[1..], sep)
    else
      var rest := Fields(s[1..], sep);
      [[s[0]] + rest[0]] + rest[1..]
  }

  lemma {:induction false} OneField(s: string, sep: char)
    requires sep !in s
    ensures Fields(s, sep) == [s]
  {
    if s != "" {
      OneField(s[1..], sep);
      assert [s[0]] + s[1..] == s;
    }
  }

  lemma {:induction false} FirstField(a: string, rest: string, sep: char)
    requires sep !in a
    ensures Fields(a + [sep] + rest, sep) == [a] + Fields(rest, sep)
  {
    if a == "" {
      assert a + [sep] + rest == [sep] + rest;
    } else {
      FirstField(a[1..], rest, sep);
      var s := a + [sep] + rest;
      assert s[1..] == a[1..] + [sep] + rest;
      assert [a[0]] + a[1..] == a;
    }
  }

  /** White space as trim() takes it (ECMAScript, WhiteSpace and LineTerminator). */
  predicate IsSpace(c: char) {
    var n := c as int;
    9 <= n <= 13 || n in {32, 160, 5760, 8232, 8233, 8239, 8287, 12288, 65279} || 8192 <= n <= 8202
  }

  function TrimStart(s: string): string {
    if s != "" && IsSpace(s[0]) then TrimStart(s[1..]) else s
  }

  function TrimEnd(s: string): string {
    if s != "" && IsSpace(s[|s| - 1]) then TrimEnd(s[..|s| - 1]) else s
  }

  function Trim(s: string): string {
    TrimEnd(TrimStart(s))
  }
}
