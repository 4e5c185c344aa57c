/** The pieces of `java.lang` string handling the core relies on: decimal
    printing and parsing (`Long.toString`, `Integer.parseInt`,
    `Long.parseLong`), `Boolean.parseBoolean`, `String.startsWith` and
    `String.split` on a one-character separator. */
module Text {
  import opened Wrappers
  import opened JavaInts

  predicate IsDigit(c: char) {
    '0' <= c <= '9'
  }

  predicate AllDigits(s: string) {
    forall i :: 0 <= i < |s| ==> IsDigit(s[i])
  }

  function DigitChar(d: nat): (c: char)
    requires d < 10
    ensures IsDigit(c)
  {
    "0123456789"[d]
  }

  function DigitValue(c: char): (d: nat)
    requires IsDigit(c)
    ensures d < 10 && DigitChar(d) == c
  {
    (c - '0') as nat
  }

  /** The decimal digits of `n`, without leading zeros. */
  function Digits(n: nat): (s: string)
    ensures |s| > 0 && AllDigits(s)
    ensures |s| > 1 ==> s[0] != '0'
  {
    if n < 10 then [DigitChar(n)] else Digits(n / 10) + [DigitChar(n % 10)]
  }

  /** The number an all-digit string denotes. */
  function DigitsValue(s: string): nat
    requires AllDigits(s)
  {
    if s == [] then 0 else DigitsValue(s[..|s| - 1]) * 10 + DigitValue(s[|s| - 1])
  }

  lemma {:induction false} DigitsRoundTrip(n: nat)
    ensures DigitsValue(Digits(n)) == n
  {
    if n >= 10 {
      var s := Digits(n);
      assert s[..|s| - 1] == Digits(n / 10);
      DigitsRoundTrip(n / 10);
    }
  }

  /** `Long.toString(i)` and `Integer.toString(i)`. */
  function Show(i: int): string {
    if i < 0 then "-" + Digits(-i) else Digits(i)
  }

  /** The syntax `Long.parseLong` and `Integer.parseInt` accept: an optional
      sign followed by at least one decimal digit. */
  function ParseInteger(s: string): (r: Option<int>)
    ensures r.Some? ==> |s| > 0
  {
    if s == [] then None
    else if s[0] == '-' || s[0] == '+' then
      var rest := s[1..];
      if rest != [] && AllDigits(rest) then
        var magnitude: int := DigitsValue(rest);
        Some(if s[0] == '-' then -magnitude else magnitude)
      else None
    else if AllDigits(s) then Some(DigitsValue(s))
    else None
  }

  lemma ParseShow(i: int)
    ensures ParseInteger(Show(i)) == Some(i)
  {
    var s := Show(i);
    if i < 0 {
      var n: nat := -i;
      var d := Digits(n);
      assert s == "-" + d;
      assert s[1..] == d;
      DigitsRoundTrip(n);
      assert DigitsValue(s[1..]) == n;
      ParseNegative(s);
    } else {
      assert s == Digits(i);
      ParseUnsigned(s);
      DigitsRoundTrip(i);
    }
  }

  lemma ParseNegative(s: string)
    requires |s| > 1 && s[0] == '-' && AllDigits(s[1..])
    ensures ParseInteger(s) == Some(0 - DigitsValue(s[1..]))
  {
  }

  lemma ParseUnsigned(s: string)
    requires |s| > 0 && AllDigits(s)
    ensures ParseInteger(s) == Some(DigitsValue(s))
  {
    assert IsDigit(s[0]);
  }

  /** `Integer.parseInt(s)`. */
  function ParseInt(s: string): (r: Result<Int32>)
    ensures r.Ok? <==> ParseInteger(s).Some? && INT32_MIN <= ParseInteger(s).value <= INT32_MAX
    ensures r.Ok? ==> r.value as int == ParseInteger(s).value
    ensures r.Err? ==> r.error == NumberFormatError(s)
  {
    match ParseInteger(s)
    case Some(v) => if INT32_MIN <= v <= INT32_MAX then Ok(v as Int32) else Err(NumberFormatError(s))
    case None => Err(NumberFormatError(s))
  }

  /** `Long.parseLong(s)`. */
  function ParseLong(s: string): (r: Result<Int64>)
    ensures r.Ok? <==> ParseInteger(s).Some? && INT64_MIN <= ParseInteger(s).value <= INT64_MAX
    ensures r.Ok? ==> r.value as int == ParseInteger(s).value
    ensures r.Err? ==> r.error == NumberFormatError(s)
  {
    match ParseInteger(s)
    case Some(v) => if INT64_MIN <= v <= INT64_MAX then Ok(v as Int64) else Err(NumberFormatError(s))
    case None => Err(NumberFormatError(s))
  }

  /** Printing a Java `int` and parsing it back gives the same `int`. */
  lemma ParseIntShow(x: Int32)
    ensures ParseInt(Show(x as int)) == Ok(x)
  {
    ParseShow(x as int);
  }

  /** Printing a Java `long` and parsing it back gives the same `long`. */
  lemma ParseLongShow(x: Int64)
    ensures ParseLong(Show(x as int)) == Ok(x)
  {
    ParseShow(x as int);
  }

  /** `Boolean.parseBoolean(s)`: true exactly for "true" in any letter case. */
  function ParseBoolean(s: string): bool {
    |s| == 4 && s[0] in "tT" && s[1] in "rR" && s[2] in "uU" && s[3] in "eE"
  }

  /** `s.startsWith(p)`. */
  predicate StartsWith(s: string, p: string) {
    |p| <= |s| && s[..|p|] == p
  }

  /** The position of the first `c` in `s`. */
  function IndexOf(s: string, c: char): (i: nat)
    requires c in s
    ensures i < |s| && s[i] == c && c !in s[..i]
  {
    if s[0] == c then 0 else 1 + IndexOf(s[1..], c)
  }

  /** `s` cut at every `c`; empty pieces are kept. */
  function Split(s: string, c: char): (parts: seq<string>)
    ensures |parts| >= 1
    ensures forall k :: 0 <= k < |parts| ==> c !in parts[k]
    decreases |s|
  {
    if c !in s then [s]
    else
      var i := IndexOf(s, c);
      [s[..i]] + Split(s[i + 1..], c)
  }

  lemma {:induction false} IndexOfAt(x: string, c: char, y: string)
    requires c !in x
    ensures IndexOf(x + [c] + y, c) == |x|
  {
    var s := x + [c] + y;
    if x != [] {
      assert s[0] == x[0];
      assert s[1..] == x[1..] + [c] + y;
      IndexOfAt(x[1..], c, y);
    }
  }

  /** Splitting at the first separator peels off the piece before it. */
  lemma SplitAt(x: string, c: char, y: string)
    requires c !in x
    ensures Split(x + [c] + y, c) == [x] + Split(y, c)
  {
    var s := x + [c] + y;
    IndexOfAt(x, c, y);
    assert s[..|x|] == x;
    assert s[|x| + 1..] == y;
  }

  /** The pieces joined with `c` between neighbours. */
  function Join(parts: seq<string>, c: char): string
    requires |parts| >= 1
    decreases |parts|
  {
    if |parts| == 1 then parts[0] else parts[0] + [c] + Join(parts[1..], c)
  }

  /** Splitting undoes joining pieces that do not contain the separator. */
  lemma {:induction false} SplitJoin(parts: seq<string>, c: char)
    requires |parts| >= 1 && forall i :: 0 <= i < |parts| ==> c !in parts[i]
    ensures Split(Join(parts, c), c) == parts
    decreases |parts|
  {
    if |parts| > 1 {
      var head, tail := parts[0], parts[1..];
      assert parts == [head] + tail;
      assert forall i :: 0 <= i < |tail| ==> tail[i] == parts[i + 1];
      SplitJoin(tail, c);
      SplitAt(head, c, Join(tail, c));
    }
  }

  /** Joining the pieces with `c` gives the text back. */
  lemma {:induction false} JoinSplit(s: string, c: char)
    ensures Join(Split(s, c), c) == s
    decreases |s|
  {
    if c in s {
      var i := IndexOf(s, c);
      var rest := Split(s[i + 1..], c);
      JoinSplit(s[i + 1..], c);
      assert Split(s, c) == [s[..i]] + rest;
      assert ([s[..i]] + rest)[1..] == rest;
      assert s == s[..i] + [c] + s[i + 1..];
    }
  }

  function DropTrailingEmpty(parts: seq<string>): (r: seq<string>)
    ensures |r| <= |parts| && r == parts[..|r|]
    ensures r != [] ==> r[|r| - 1] != []
  {
    if parts != [] && parts[|parts| - 1] == [] then DropTrailingEmpty(parts[..|parts| - 1]) else parts
  }

  /** `s.split(String.valueOf(c))`: the input itself when `c` does not occur,
      otherwise the pieces without the trailing empty ones. */
  function JavaSplit(s: string, c: char): (r: seq<string>)
    ensures c !in s ==> r == [s]
    ensures forall k :: 0 <= k < |r| ==> c !in r[k]
    ensures c in s ==> |r| <= |Split(s, c)| && r == Split(s, c)[..|r|] && (r == [] || r[|r| - 1] != [])
  {
    if c !in s then [s] else DropTrailingEmpty(Split(s, c))
  }
}
