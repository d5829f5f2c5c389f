/** The conventional optional value. */
module Wrappers {
  datatype Option<+T> = None | Some(value: T)
}

/**
  The QString and QList operations the translation engine relies on, with
  Qt 5's behaviour on "not found" (-1) indices, out-of-range lengths and
  32-bit integer conversions written out.
*/
module QtString {
  import opened Wrappers

  const INT_MIN: int := -0x8000_0000
  const INT_MAX: int := 0x7fff_ffff
  const LLONG_MIN: int := -0x8000_0000_0000_0000
  const LLONG_MAX: int := 0x7fff_ffff_ffff_ffff

  predicate InInt32(n: int) { INT_MIN <= n <= INT_MAX }

  /** The C++ conversion of a 64-bit integer to `int`: two's-complement truncation. */
  function Wrap32(n: int): (r: int)
    ensures InInt32(r)
    ensures InInt32(n) ==> r == n
  {
    (n - INT_MIN) % 0x1_0000_0000 + INT_MIN
  }

  // ---------------------------------------------------------------------
  // Searching and slicing

  /** QString::indexOf(QChar): the first position of `c`, or -1. */
  function IndexOf(s: string, c: char): (r: int)
    ensures -1 <= r < |s|
    decreases |s|
  {
    if s == [] then -1
    else if s[0] == c then 0
    else
      var k := IndexOf(s[1..], c);
      if k < 0 then -1 else k + 1
  }

  /** -1 exactly when `c` is absent; otherwise `c` is there and nowhere before. */
  lemma {:induction false} IndexOfFirst(s: string, c: char)
    ensures var r := IndexOf(s, c);
      (r == -1 <==> c !in s) && (0 <= r ==> s[r] == c && c !in s[..r])
    decreases |s|
  {
    if s != [] && s[0] != c {
      IndexOfFirst(s[1..], c);
      var k := IndexOf(s[1..], c);
      assert s == [s[0]] + s[1..];
      if 0 <= k {
        assert s[..k + 1] == [s[0]] + s[1..][..k];
      }
    }
  }

  /** The first occurrence is the only index with `c` there and none before. */
  lemma {:induction false} IndexOfIs(s: string, c: char, i: int)
    requires 0 <= i < |s| && s[i] == c && c !in s[..i]
    ensures IndexOf(s, c) == i
    decreases i
  {
    if 0 < i {
      assert s[0] == s[..i][0];
      assert s[1..][..i - 1] == s[1..i];
      IndexOfIs(s[1..], c, i - 1);
    }
  }

  /** QString::left(n): the whole string when n is negative or too large. */
  function Left(s: string, n: int): string
  {
    if 0 <= n < |s| then s[..n] else s
  }

  /**
    QString::mid(position, n), following QContainerImplHelper::mid: a
    negative `n` means "to the end", a negative `position` eats into `n`,
    a position past the end gives the empty string.
  */
  function Mid(s: string, position: int, n: int): string
  {
    if position > |s| then ""
    else if position < 0 then
      if n < 0 || n + position >= |s| then s
      else if n + position <= 0 then ""
      else s[..n + position]
    else
      var len := if n < 0 || n > |s| - position then |s| - position else n;
      s[position..position + len]
  }

  /** Within range, Mid is a plain slice. */
  lemma MidSlice(s: string, position: int, n: int)
    requires 0 <= position && 0 <= n && position + n <= |s|
    ensures Mid(s, position, n) == s[position..position + n]
  {
  }

  /** Splitting at the first occurrence of `c` with Left and Mid, as the URL decoder does. */
  lemma LeftMidAroundFirst(s: string, c: char)
    ensures var k := IndexOf(s, c);
      if c in s then Left(s, k) + [c] + Mid(s, k + 1, -1) == s && c !in Left(s, k)
      else Left(s, k) == s && Mid(s, k + 1, -1) == s
  {
    var k := IndexOf(s, c);
    IndexOfFirst(s, c);
    if c in s {
      assert Left(s, k) == s[..k];
      assert Mid(s, k + 1, -1) == s[k + 1..];
      assert s == s[..k] + [s[k]] + s[k + 1..];
    } else {
      assert Mid(s, 0, -1) == s[0..|s|];
    }
  }

  /** The text strictly between two positions, taken as the URL decoder takes it. */
  lemma MidBetween(s: string, i: int, j: int)
    requires 0 <= i < j <= |s|
    ensures Mid(s, i + 1, j - i - 1) == s[i + 1..j]
  {
  }

  // ---------------------------------------------------------------------
  // Splitting

  function Count(s: string, c: char): nat
  {
    if s == [] then 0 else (if s[0] == c then 1 else 0) + Count(s[1..], c)
  }

  /** QString::split(QChar) with empty parts kept. */
  function Split(s: string, c: char): seq<string>
    decreases |s|
  {
    var k := IndexOf(s, c);
    if k < 0 then [s] else [s[..k]] + Split(s[k + 1..], c)
  }

  /** The parts one after the other. */
  function Concat(parts: seq<string>): string
  {
    if parts == [] then "" else parts[0] + Concat(parts[1..])
  }

  /** Joins parts with the separator; the inverse of Split. */
  function Join(parts: seq<string>, c: char): string
  {
    if parts == [] then "" else if |parts| == 1 then parts[0] else parts[0] + [c] + Join(parts[1..], c)
  }

  lemma {:induction false} CountAppend(a: string, b: string, c: char)
    ensures Count(a + b, c) == Count(a, c) + Count(b, c)
  {
    if a != [] {
      assert (a + b)[0] == a[0];
      assert (a + b)[1..] == a[1..] + b;
      CountAppend(a[1..], b, c);
    } else {
      assert a + b == b;
    }
  }

  lemma {:induction false} CountAbsent(s: string, c: char)
    requires c !in s
    ensures Count(s, c) == 0
  {
    if s != [] {
      CountAbsent(s[1..], c);
    }
  }

  lemma SeparatorCount(s: string, c: char, k: int)
    requires 0 <= k < |s| && s[k] == c && c !in s[..k]
    ensures Count(s, c) == Count(s[k + 1..], c) + 1
  {
    assert s == s[..k] + ([c] + s[k + 1..]);
    CountAbsent(s[..k], c);
    CountAppend(s[..k], [c] + s[k + 1..], c);
    assert ([c] + s[k + 1..])[1..] == s[k + 1..];
  }

  /**
    Split yields one more part than there are separators, no part holds the
    separator, and joining the parts gives the string back.
  */
  lemma {:induction false} SplitParts(s: string, c: char)
    ensures |Split(s, c)| == Count(s, c) + 1
    ensures forall i :: 0 <= i < |Split(s, c)| ==> c !in Split(s, c)[i]
    ensures Join(Split(s, c), c) == s
    decreases |s|
  {
    var k := IndexOf(s, c);
    IndexOfFirst(s, c);
    if k < 0 {
      CountAbsent(s, c);
    } else {
      var rest := s[k + 1..];
      var tail := Split(rest, c);
      SplitParts(rest, c);
      SeparatorCount(s, c, k);
      var parts := Split(s, c);
      assert parts == [s[..k]] + tail;
      assert |tail| >= 1;
      assert parts[1..] == tail;
      assert Join(parts, c) == s[..k] + [c] + Join(tail, c);
      assert s == s[..k] + [c] + rest;
    }
  }

  /** A piece splits on `c` into exactly two parts iff it holds exactly one `c`. */
  lemma SplitInTwo(s: string, c: char)
    ensures |Split(s, c)| == 2 <==> Count(s, c) == 1
  {
    SplitParts(s, c);
  }

  // ---------------------------------------------------------------------
  // Case folding

  function LowerChar(ch: char): char
  {
    if 'A' <= ch <= 'Z' then (ch as int - 'A' as int + 'a' as int) as char else ch
  }

  /** QString::toLower, restricted to ASCII letters. */
  function ToLower(s: string): (r: string)
    ensures |r| == |s|
    ensures forall i :: 0 <= i < |s| ==> r[i] == LowerChar(s[i])
  {
    seq(|s|, i requires 0 <= i < |s| => LowerChar(s[i]))
  }

  lemma ToLowerIdempotent(s: string)
    ensures ToLower(ToLower(s)) == ToLower(s)
  {
  }

  // ---------------------------------------------------------------------
  // Numbers and their decimal text

  predicate IsDigit(ch: char) { '0' <= ch <= '9' }

  predicate AllDigits(s: string) { forall i :: 0 <= i < |s| ==> IsDigit(s[i]) }

  function DigitChar(d: nat): char
    requires d < 10
  {
    ('0' as int + d) as char
  }

  /** The value of a string of decimal digits, read most significant first. */
  function DigitsValue(s: string): nat
    requires AllDigits(s)
    decreases |s|
  {
    if s == [] then 0 else DigitsValue(s[..|s| - 1]) * 10 + (s[|s| - 1] as int - '0' as int)
  }

  /** Decimal text of a natural number, no leading zeros. */
  function NatToString(n: nat): (r: string)
    ensures r != [] && AllDigits(r)
  {
    if n < 10 then [DigitChar(n)] else NatToString(n / 10) + [DigitChar(n % 10)]
  }

  /** QString::number(int). */
  function IntToString(n: int): string
  {
    if n < 0 then "-" + NatToString(-n) else NatToString(n)
  }

  /** An optional sign followed by at least one digit; no range limit. */
  function ParseInteger(s: string): Option<int>
  {
    if s == [] then None
    else if s[0] == '-' || s[0] == '+' then
      var d := s[1..];
      if d != [] && AllDigits(d) then
        var v: int := if s[0] == '-' then -(DigitsValue(d) as int) else DigitsValue(d);
        Some(v)
      else None
    else if AllDigits(s) then Some(DigitsValue(s))
    else None
  }

  /** QString::toInt(): the number when it parses and fits in 32 bits, else 0. */
  function QStringToInt(s: string): (r: int)
    ensures InInt32(r)
  {
    match ParseInteger(s)
    case Some(v) => if InInt32(v) then v else 0
    case None => 0
  }

  lemma {:induction false} DigitsValueOfNat(n: nat)
    ensures DigitsValue(NatToString(n)) == n
  {
    if n >= 10 {
      DigitsValueOfNat(n / 10);
      var s := NatToString(n);
      assert s[..|s| - 1] == NatToString(n / 10);
    }
  }

  /** Reading back the text QString::number writes gives the number. */
  lemma ParseIntToString(n: int)
    ensures ParseInteger(IntToString(n)) == Some(n)
  {
    if n < 0 {
      DigitsValueOfNat(-n);
      assert IntToString(n)[1..] == NatToString(-n);
    } else {
      DigitsValueOfNat(n);
    }
  }

  // ---------------------------------------------------------------------
  // QList<QString>::removeAll

  function RemoveAll(s: seq<string>, x: string): (r: seq<string>)
    ensures multiset(r) == multiset(s)[x := 0]
    ensures x !in r
  {
    if s == [] then []
    else
      assert s == [s[0]] + s[1..];
      (if s[0] == x then [] else [s[0]]) + RemoveAll(s[1..], x)
  }

  lemma RemoveAllCons(y: string, s: seq<string>, x: string)
    requires y != x
    ensures RemoveAll([y] + s, x) == [y] + RemoveAll(s, x)
  {
    assert ([y] + s)[1..] == s;
  }

  /** A kept first element stays first. */
  lemma RemoveAllHead(s: seq<string>, x: string)
    requires s != [] && s[0] != x
    ensures RemoveAll(s, x) != [] && RemoveAll(s, x)[0] == s[0]
  {
  }

  lemma {:induction false} RemoveAllAppend(a: seq<string>, b: seq<string>, x: string)
    ensures RemoveAll(a + b, x) == RemoveAll(a, x) + RemoveAll(b, x)
  {
    if a != [] {
      assert (a + b)[0] == a[0];
      assert (a + b)[1..] == a[1..] + b;
      RemoveAllAppend(a[1..], b, x);
    } else {
      assert a + b == b;
    }
  }
}
