/**
  The size line of the dashboard's "File" panel:
  "Size: " and fourteen blanks, the size in bytes in decimal, then the size
  in KiB in parentheses.

  The size is Go's `int64` from `os.Stat`. The KiB figure is written
  `filesize/1024.0`; the constant becomes an `int64`, so this is Go's integer
  division, which truncates toward zero. Both numbers are rendered by
  `strconv.FormatInt(_, 10)`: a '-' for a negative number, then the decimal
  digits with no leading zero.
*/
module FileInfo {
  import opened Wrappers

  newtype int64 = x: int | -0x8000_0000_0000_0000 <= x < 0x8000_0000_0000_0000

  /**
    The KiB figure, `filesize/1024`: Go's quotient truncated toward zero,
    which is Dafny's (Euclidean) quotient only for a non-negative size.
  */
  function KiB(size: int64): (k: int64)
    ensures size >= 0 ==> 0 <= k as int * 1024 <= size as int < (k as int + 1) * 1024
    ensures size < 0 ==> (k as int - 1) * 1024 < size as int <= k as int * 1024 <= 0
  {
    if size >= 0 then size / 1024 else -((-(size as int)) / 1024) as int64
  }

  /** A file below one KiB shows 0 KiB; whole KiB are shown exactly. */
  lemma KiBExamples(n: int64)
    requires 0 <= n < 0x20_0000_0000_0000
    ensures KiB(1023) == 0 && KiB(1024) == 1 && KiB(-1023) == 0
    ensures KiB((n * 1024) as int64) == n
  {
  }

  function DigitChar(d: nat): (c: char)
    requires d < 10
    ensures '0' <= c <= '9'
  {
    "0123456789"[d]
  }

  predicate IsDigit(c: char)
  {
    '0' <= c <= '9'
  }

  /** Every character of `s` is a decimal digit. */
  predicate AllDigits(s: string)
  {
    forall i :: 0 <= i < |s| ==> IsDigit(s[i])
  }

  function DigitValue(c: char): (d: nat)
    requires IsDigit(c)
    ensures d < 10
  {
    c as int - '0' as int
  }

  /** The decimal digits of a natural number, with no leading zero. */
  function Digits(n: nat): (s: string)
    ensures |s| >= 1
    ensures AllDigits(s)
    ensures |s| > 1 ==> s[0] != '0'
  {
    if n < 10 then [DigitChar(n)] else Digits(n / 10) + [DigitChar(n % 10)]
  }

  /** `strconv.FormatInt(n, 10)`. */
  function FormatInt(n: int): (s: string)
    ensures ' ' !in s
  {
    if n < 0 then "-" + Digits(-n) else Digits(n)
  }

  /** The value of a string of decimal digits. */
  function DigitsValue(s: string): nat
    requires AllDigits(s)
  {
    if s == [] then 0 else DigitsValue(s[..|s| - 1]) * 10 + DigitValue(s[|s| - 1])
  }

  /** Reads back what `FormatInt` writes: an optional '-' and decimal digits. */
  function ParseInt(s: string): Option<int>
  {
    if |s| > 0 && s[0] == '-' then
      if |s| > 1 && AllDigits(s[1..]) then
        var v: int := -(DigitsValue(s[1..]) as int); Some(v)
      else None
    else if |s| > 0 && AllDigits(s) then
      var v: int := DigitsValue(s); Some(v)
    else None
  }


  lemma {:induction false} DigitsRoundTrip(n: nat)
    ensures DigitsValue(Digits(n)) == n
    decreases n
  {
    var s := Digits(n);
    if n >= 10 {
      DigitsRoundTrip(n / 10);
      assert s[..|s| - 1] == Digits(n / 10);
    }
  }

  /** A '-' followed by the digits of a number reads back as its negation. */
  lemma ParseNegative(m: nat)
    ensures ParseInt("-" + Digits(m)) == Some(-(m as int))
  {
    var d := Digits(m);
    var s := "-" + d;
    DigitsRoundTrip(m);
    assert s[1..] == d;
  }

  /** The digits of a number alone read back as that number. */
  lemma ParseDigits(m: nat)
    ensures ParseInt(Digits(m)) == Some(m)
  {
    DigitsRoundTrip(m);
    assert IsDigit(Digits(m)[0]);
  }

  /** Every number `FormatInt` renders is read back as itself. */
  lemma FormatIntRoundTrip(n: int)
    ensures ParseInt(FormatInt(n)) == Some(n)
  {
    if n < 0 {
      assert FormatInt(n) == "-" + Digits(-n);
      ParseNegative(-n);
    } else {
      assert FormatInt(n) == Digits(n);
      ParseDigits(n);
    }
  }

  /** The label in front of the size. */
  const SizeLabel: string := "Size: " + "              "

  /** What follows the blank after the size: the KiB figure in parentheses. */
  function KiBPart(size: int64): string
  {
    "(" + FormatInt(KiB(size) as int) + " KiB)" + "\n"
  }

  /**
    The first line of the "File" panel: the label, then the size, which
    runs up to the first blank and reads back as the size itself, then
    " (" and the KiB figure, which also runs up to a blank and reads back
    as `KiB(size)`, and last " KiB)" and the newline.
  */
  function SizeLine(size: int64): (line: string)
    ensures |SizeLabel| <= |line| && line[..|SizeLabel|] == SizeLabel
    ensures ParseInt(UpToBlank(line[|SizeLabel|..])) == Some(size as int)
    ensures var at := |SizeLabel| + |FormatInt(size as int)|;
            var end := at + 2 + |FormatInt(KiB(size) as int)|;
            end <= |line| && line[at..at + 2] == " ("
            && ParseInt(UpToBlank(line[at + 2..])) == Some(KiB(size) as int)
            && line[end..] == " KiB)\n"
  {
    var n := FormatInt(size as int);
    var k := FormatInt(KiB(size) as int);
    var line := SizeLabel + (n + " " + KiBPart(size));
    LineFields(line, n, k);
    FormatIntRoundTrip(size as int);
    FormatIntRoundTrip(KiB(size) as int);
    line
  }

  /** Where the two numbers sit in a size line, whatever their digits. */
  lemma LineFields(line: string, n: string, k: string)
    requires ' ' !in n && ' ' !in k
    requires line == SizeLabel + (n + " " + ("(" + k + " KiB)" + "\n"))
    ensures |SizeLabel| + |n| + 2 + |k| <= |line|
    ensures UpToBlank(line[|SizeLabel|..]) == n
    ensures line[|SizeLabel| + |n|..|SizeLabel| + |n| + 2] == " ("
    ensures UpToBlank(line[|SizeLabel| + |n| + 2..]) == k
    ensures line[|SizeLabel| + |n| + 2 + |k|..] == " KiB)\n"
  {
    var at := |SizeLabel| + |n|;
    assert line[|SizeLabel|..] == n + " " + ("(" + k + " KiB)" + "\n");
    UpToBlankOf(n, "(" + k + " KiB)" + "\n");
    assert line[at + 2..] == k + " " + "KiB)\n";
    UpToBlankOf(k, "KiB)\n");
  }

  /** The text up to the first blank, as a reader of the panel would take the number. */
  function UpToBlank(s: string): (r: string)
    ensures ' ' !in r
  {
    if s == [] || s[0] == ' ' then [] else [s[0]] + UpToBlank(s[1..])
  }

  lemma {:induction false} UpToBlankOf(x: string, rest: string)
    requires ' ' !in x
    ensures UpToBlank(x + " " + rest) == x
  {
    if x != [] {
      assert (x + " " + rest)[0] == x[0];
      assert (x + " " + rest)[1..] == x[1..] + " " + rest;
      UpToBlankOf(x[1..], rest);
    }
  }

  /** The size line determines the size: no two sizes show the same line. */
  lemma SizeLineDeterminesSize(a: int64, b: int64)
    ensures SizeLine(a) == SizeLine(b) <==> a == b
  {
  }
}
