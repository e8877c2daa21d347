/** The pieces of QString that the configurator relies on: decimal formatting
    (QString::number), decimal parsing (QString::toInt), splitting at a
    separator (QString::split) and lower-casing. */
module QtText {
  import opened Options

  /** The values of a C++ `int`. */
  type Int32 = x: int | -0x8000_0000 <= x < 0x8000_0000

  predicate IsDigit(c: char) { '0' <= c <= '9' }

  predicate AllDigits(s: string) { forall i :: 0 <= i < |s| ==> IsDigit(s[i]) }

  function DigitChar(d: nat): (c: char)
    requires d < 10
    ensures IsDigit(c)
  {
    (48 + d) as char
  }

  function DigitValue(c: char): (d: nat)
    requires IsDigit(c)
    ensures d < 10
  {
    c as int - '0' as int
  }

  /** The number a run of decimal digits denotes, most significant digit first. */
  function DigitsValue(s: string): nat
    requires AllDigits(s)
  {
    if s == [] then 0 else 10 * DigitsValue(s[..|s| - 1]) + DigitValue(s[|s| - 1])
  }

  /** Decimal digits of `n` without leading zeros; they denote `n`. */
  function FormatNat(n: nat): (s: string)
    ensures |s| >= 1 && AllDigits(s)
    ensures DigitsValue(s) == n
    ensures s[0] == '0' ==> n == 0
  {
    if n < 10 then [DigitChar(n)]
    else
      var high := FormatNat(n / 10);
      assert (high + [DigitChar(n % 10)])[..|high|] == high;
      high + [DigitChar(n % 10)]
  }

  /** QString::number(int): a minus sign for negative values, then the digits. */
  function FormatInt(i: int): (s: string)
    ensures |s| >= 1
    ensures s[0] == '-' <==> i < 0
    ensures IsDigit(s[0]) || s[0] == '-'
    ensures forall k :: 1 <= k < |s| ==> IsDigit(s[k])
  {
    if i < 0 then "-" + FormatNat(-i) else FormatNat(i)
  }

  /** White space as QChar::isSpace sees it, restricted to ASCII. */
  predicate IsSpace(c: char) { c == ' ' || '\t' <= c <= '\r' }

  function TrimStart(s: string): string
  {
    if s != [] && IsSpace(s[0]) then TrimStart(s[1..]) else s
  }

  function TrimEnd(s: string): string
  {
    if s != [] && IsSpace(s[|s| - 1]) then TrimEnd(s[..|s| - 1]) else s
  }

  /** QString::trimmed: white space removed at both ends. */
  function Trim(s: string): string
  {
    TrimEnd(TrimStart(s))
  }

  /** An optional sign followed by at least one decimal digit, and nothing else. */
  function ParseDecimal(t: string): Option<int>
  {
    if t != [] && (t[0] == '-' || t[0] == '+') then
      var body := t[1..];
      if body != [] && AllDigits(body) then
        var magnitude: int := DigitsValue(body);
        Some(if t[0] == '-' then -magnitude else magnitude)
      else None
    else if t != [] && AllDigits(t) then Some(DigitsValue(t))
    else None
  }

  /** QString::toInt with base 10: white space around the number is skipped, and
      text that is not a number, or a number outside the `int` range, gives 0. */
  function ParseInt(s: string): (r: Int32)
    ensures ParseDecimal(Trim(s)).None? ==> r == 0
    ensures r != 0 ==> ParseDecimal(Trim(s)) == Some(r as int)
    ensures ParseDecimal(Trim(s)).Some? && -0x8000_0000 <= ParseDecimal(Trim(s)).value < 0x8000_0000 ==>
      r == ParseDecimal(Trim(s)).value
    ensures ParseDecimal(Trim(s)).Some? && !(-0x8000_0000 <= ParseDecimal(Trim(s)).value < 0x8000_0000) ==> r == 0
  {
    match ParseDecimal(Trim(s))
    case Some(v) => if -0x8000_0000 <= v < 0x8000_0000 then v else 0
    case None => 0
  }

  /** Every `int` survives being written with QString::number and read back
      with QString::toInt. */
  lemma {:induction false} ParseIntFormatInt(i: Int32)
    ensures ParseInt(FormatInt(i)) == i
  {
    var s := FormatInt(i);
    assert !IsSpace(s[0]) && !IsSpace(s[|s| - 1]);
    assert Trim(s) == s;
    if i < 0 {
      var magnitude: nat := -(i as int);
      var digits := FormatNat(magnitude);
      assert s == "-" + digits;
      assert s[1..] == digits;
      assert ParseDecimal(s) == Some(i);
    } else {
      assert s == FormatNat(i);
      assert ParseDecimal(s) == Some(i);
    }
  }

  /** QString::split(sep) keeping empty parts: the pieces between separators. */
  function Split(s: string, sep: char): (parts: seq<string>)
    ensures |parts| >= 1
    ensures forall i :: 0 <= i < |parts| ==> sep !in parts[i]
    ensures sep in s ==> |parts| >= 2
  {
    if s == [] then [""]
    else
      var rest := Split(s[1..], sep);
      if s[0] == sep then [""] + rest
      else [[s[0]] + rest[0]] + rest[1..]
  }

  /** QStringList::join(sep), the inverse of Split. */
  function Join(parts: seq<string>, sep: char): string
    requires |parts| >= 1
  {
    if |parts| == 1 then parts[0] else parts[0] + [sep] + Join(parts[1..], sep)
  }

  /** Splitting loses nothing: joining the pieces gives back the text. */
  lemma {:induction false} JoinSplit(s: string, sep: char)
    ensures Join(Split(s, sep), sep) == s
  {
    if s != [] {
      var rest := Split(s[1..], sep);
      JoinSplit(s[1..], sep);
      if s[0] == sep {
        assert ([""] + rest)[1..] == rest;
      } else if |rest| > 1 {
        var parts := [[s[0]] + rest[0]] + rest[1..];
        assert parts[1..] == rest[1..];
      }
    }
  }

  lemma {:induction false} SplitWithoutSeparator(s: string, sep: char)
    requires sep !in s
    ensures Split(s, sep) == [s]
  {
    if s != [] {
      SplitWithoutSeparator(s[1..], sep);
      assert [s[0]] + s[1..] == s;
    }
  }

  /** Text of the form `host:port` with no other separator splits into exactly
      those two pieces. */
  lemma {:induction false} SplitTwoPieces(host: string, port: string, sep: char)
    requires sep !in host && sep !in port
    ensures Split(host + [sep] + port, sep) == [host, port]
  {
    var s := host + [sep] + port;
    if host == [] {
      assert s[1..] == port;
      SplitWithoutSeparator(port, sep);
    } else {
      assert s[1..] == host[1..] + [sep] + port;
      SplitTwoPieces(host[1..], port, sep);
      assert [host[0]] + host[1..] == host;
    }
  }

  function LowerChar(c: char): char
  {
    if 'A' <= c <= 'Z' then (c as int + 32) as char else c
  }

  /** QString::toLower, restricted to ASCII letters. */
  function ToLower(s: string): (t: string)
    ensures |t| == |s|
    ensures forall i :: 0 <= i < |s| ==> t[i] == LowerChar(s[i])
  {
    if s == [] then [] else [LowerChar(s[0])] + ToLower(s[1..])
  }
}
