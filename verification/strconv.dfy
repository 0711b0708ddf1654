/**
  Go's `strconv.Atoi` on a 64-bit platform, the test that main.go uses to
  tell a direct-chat identifier from a group identifier.

  `IsInt` and `IntValue` are the reference definition: an optional `+` or
  `-`, at least one decimal digit, nothing but digits after that, and a
  value within the range of a 64-bit `int`.  The methods `ParseUint`,
  `ParseInt` and `Atoi` follow Go's scanning algorithm (its fast path for
  short inputs, its unsigned cutoff test and its wrapping uint64 addition)
  and are proved to agree with the reference definition.
*/
module Strconv {
  import opened Wrappers

  const MaxInt64: int := 0x7FFF_FFFF_FFFF_FFFF
  const MinInt64: int := -0x8000_0000_0000_0000
  const MaxUint64: int := 0xFFFF_FFFF_FFFF_FFFF
  const Two64: int := 0x1_0000_0000_0000_0000

  /** Go's `strconv.ErrSyntax` and `strconv.ErrRange`. */
  datatype NumError = ErrSyntax | ErrRange

  predicate IsDigit(c: char) {
    '0' <= c <= '9'
  }

  predicate AllDigits(s: string) {
    forall i :: 0 <= i < |s| ==> IsDigit(s[i])
  }

  function DigitValue(c: char): (d: nat)
    requires IsDigit(c)
    ensures d <= 9
  {
    c as int - '0' as int
  }

  function Pow10(k: nat): (p: nat)
    ensures p >= 1
  {
    if k == 0 then 1 else 10 * Pow10(k - 1)
  }

  /** The value of a string of decimal digits, most significant first. */
  function Value(ds: string): nat
    requires AllDigits(ds)
    decreases |ds|
  {
    if ds == [] then 0 else 10 * Value(ds[..|ds| - 1]) + DigitValue(ds[|ds| - 1])
  }

  /** True when the string starts with a minus sign. */
  predicate Negative(s: string) {
    |s| > 0 && s[0] == '-'
  }

  /** The string with one leading sign, if any, removed. */
  function Magnitude(s: string): string {
    if |s| > 0 && (s[0] == '+' || s[0] == '-') then s[1..] else s
  }

  /** Reference definition: `s` is accepted by `strconv.Atoi` with a 64-bit `int`. */
  predicate IsInt(s: string) {
    var m := Magnitude(s);
    && |m| > 0
    && AllDigits(m)
    && (if Negative(s) then Value(m) <= -MinInt64 else Value(m) <= MaxInt64)
  }

  /** The integer an accepted string denotes. */
  function IntValue(s: string): int
    requires IsInt(s)
  {
    var v: int := Value(Magnitude(s));
    if Negative(s) then -v else v
  }

  lemma {:induction false} ValueBound(ds: string)
    requires AllDigits(ds)
    ensures Value(ds) < Pow10(|ds|)
    decreases |ds|
  {
    if ds != [] {
      ValueBound(ds[..|ds| - 1]);
    }
  }

  /** A prefix of a digit string is worth no more than the whole string. */
  lemma {:induction false} ValuePrefix(ds: string, k: nat)
    requires AllDigits(ds) && k <= |ds|
    ensures AllDigits(ds[..k])
    ensures Value(ds[..k]) <= Value(ds)
    decreases |ds|
  {
    if k < |ds| {
      var p := ds[..|ds| - 1];
      assert ds[..k] == p[..k];
      ValuePrefix(p, k);
    } else {
      assert ds[..k] == ds;
    }
  }

  /** Appending one digit multiplies the value by ten and adds the digit. */
  lemma ValueStep(s: string, i: nat)
    requires i < |s| && AllDigits(s[..i]) && IsDigit(s[i])
    ensures AllDigits(s[..i + 1])
    ensures Value(s[..i + 1]) == 10 * Value(s[..i]) + DigitValue(s[i])
  {
    assert s[..i + 1][..i] == s[..i];
  }

  /** A digit string without a leading zero is worth at least 10^(length-1). */
  lemma {:induction false} ValueLowerBound(ds: string)
    requires AllDigits(ds) && |ds| > 0 && ds[0] != '0'
    ensures Value(ds) >= Pow10(|ds| - 1)
    decreases |ds|
  {
    if |ds| > 1 {
      var p := ds[..|ds| - 1];
      assert p[0] == ds[0];
      ValueLowerBound(p);
    }
  }

  /** The value of a three-digit string. */
  lemma ThreeDigits(a: char, b: char, c: char)
    requires IsDigit(a) && IsDigit(b) && IsDigit(c)
    ensures AllDigits([a, b, c])
    ensures Value([a, b, c]) == 100 * DigitValue(a) + 10 * DigitValue(b) + DigitValue(c)
  {
    assert [a][..0] == [];
    assert Value([a]) == DigitValue(a);
    assert [a, b][..1] == [a];
    assert Value([a, b]) == 10 * DigitValue(a) + DigitValue(b);
    assert [a, b, c][..2] == [a, b];
  }

  /** The value of two digit strings written one after the other. */
  lemma {:induction false} ValueConcat(a: string, b: string)
    requires AllDigits(a) && AllDigits(b)
    ensures AllDigits(a + b)
    ensures Value(a + b) == Value(a) * Pow10(|b|) + Value(b)
    decreases |b|
  {
    if b == [] {
      assert a + b == a;
    } else {
      var b' := b[..|b| - 1];
      ValueConcat(a, b');
      assert (a + b)[..|a + b| - 1] == a + b';
      assert (a + b)[|a + b| - 1] == b[|b| - 1];
      calc {
        Value(a + b);
        10 * Value(a + b') + DigitValue(b[|b| - 1]);
        10 * (Value(a) * Pow10(|b'|) + Value(b')) + DigitValue(b[|b| - 1]);
        { assert 10 * (Value(a) * Pow10(|b'|)) == Value(a) * (10 * Pow10(|b'|)); }
        Value(a) * Pow10(|b|) + Value(b);
      }
    }
  }

  lemma Pow10Of18()
    ensures Pow10(18) == 1_000_000_000_000_000_000
  {
    assert Pow10(6) == 1_000_000;
    assert Pow10(12) == 1_000_000_000_000;
  }

  lemma Pow10Of19()
    ensures Pow10(19) == 10_000_000_000_000_000_000
  {
    Pow10Of18();
  }

  lemma Pow10Monotone(a: nat, b: nat)
    requires a <= b
    ensures Pow10(a) <= Pow10(b)
    decreases b
  {
    if a < b {
      Pow10Monotone(a, b - 1);
    }
  }

  /**
    `strconv.ParseUint(s, 10, 64)`: an unsigned decimal with no sign.  On
    overflow Go returns the maximum uint64 together with ErrRange, and it
    stops scanning at that point.
  */
  method ParseUint(s: string) returns (n: int, err: Option<NumError>)
    ensures err == None <==> |s| > 0 && AllDigits(s) && Value(s) <= MaxUint64
    ensures err == None ==> n == Value(s)
    ensures err == Some(ErrRange) ==> n == MaxUint64 && |s| > 0
    ensures err == Some(ErrRange) && AllDigits(s) ==> Value(s) > MaxUint64
    ensures |s| > 0 && AllDigits(s) && Value(s) > MaxUint64 ==> err == Some(ErrRange)
    ensures |s| == 0 ==> err == Some(ErrSyntax)
  {
    if |s| == 0 {
      return 0, Some(ErrSyntax);
    }
    // cutoff is the smallest number such that cutoff * 10 overflows a uint64
    var cutoff := MaxUint64 / 10 + 1;
    var maxVal := MaxUint64;
    n := 0;
    var i := 0;
    while i < |s|
      invariant 0 <= i <= |s|
      invariant AllDigits(s[..i])
      invariant n == Value(s[..i]) <= MaxUint64
    {
      var c := s[i];
      if !IsDigit(c) {
        return 0, Some(ErrSyntax);
      }
      var d := DigitValue(c);
      ValueStep(s, i);
      if n >= cutoff {
        // n * 10 would overflow
        RangeFromPrefix(s, i + 1);
        return maxVal, Some(ErrRange);
      }
      n := n * 10;
      // uint64 addition wraps around
      var sum := n + d;
      var n1 := if sum > MaxUint64 then sum - Two64 else sum;
      if n1 < n || n1 > maxVal {
        // n + d overflows
        RangeFromPrefix(s, i + 1);
        return maxVal, Some(ErrRange);
      }
      n := n1;
      i := i + 1;
    }
    assert s[..i] == s;
    return n, None;
  }

  /** A prefix that already overflows makes the whole digit string overflow. */
  lemma RangeFromPrefix(s: string, k: nat)
    requires k <= |s| && AllDigits(s[..k]) && Value(s[..k]) > MaxUint64
    ensures AllDigits(s) ==> Value(s) > MaxUint64
  {
    if AllDigits(s) {
      ValuePrefix(s, k);
    }
  }

  /**
    `strconv.ParseInt(s, 10, 0)` with a 64-bit `int`: a sign, then
    `ParseUint` on the rest, then the signed range test.  On overflow Go
    returns the nearest bound together with ErrRange.
  */
  method ParseInt(s: string) returns (n: int, err: Option<NumError>)
    ensures err == None <==> IsInt(s)
    ensures err == None ==> n == IntValue(s)
    ensures err == Some(ErrRange) ==> n == (if Negative(s) then MinInt64 else MaxInt64)
    ensures Magnitude(s) == [] ==> err == Some(ErrSyntax)
    ensures |Magnitude(s)| > 0 && AllDigits(Magnitude(s)) && !IsInt(s) ==> err == Some(ErrRange)
  {
    if |s| == 0 {
      return 0, Some(ErrSyntax);
    }
    var neg := false;
    var rest := s;
    if s[0] == '+' {
      rest := s[1..];
    } else if s[0] == '-' {
      neg := true;
      rest := s[1..];
    }
    assert rest == Magnitude(s) && neg == Negative(s);
    var un, uerr := ParseUint(rest);
    if uerr.Some? && uerr.value != ErrRange {
      return 0, uerr;
    }
    var cutoff := MaxInt64 + 1;
    if !neg && un >= cutoff {
      return cutoff - 1, Some(ErrRange);
    }
    if neg && un > cutoff {
      return -cutoff, Some(ErrRange);
    }
    // int64(un) negated: for un == cutoff both steps wrap to MinInt64
    n := if neg then -un else un;
    return n, None;
  }

  /**
    `strconv.Atoi` with a 64-bit `int`.  Inputs of 1 to 18 bytes take a
    fast path that cannot overflow; all others go through `ParseInt`.
  */
  method Atoi(s: string) returns (n: int, err: Option<NumError>)
    ensures err == None <==> IsInt(s)
    ensures err == None ==> n == IntValue(s) && MinInt64 <= n <= MaxInt64
    ensures err == Some(ErrRange) ==> n == (if Negative(s) then MinInt64 else MaxInt64)
    ensures Magnitude(s) == [] ==> err == Some(ErrSyntax)
    ensures |Magnitude(s)| > 0 && AllDigits(Magnitude(s)) && !IsInt(s) ==> err == Some(ErrRange)
  {
    if 0 < |s| < 19 {
      var m := s;
      if s[0] == '-' || s[0] == '+' {
        m := s[1..];
        if |m| < 1 {
          return 0, Some(ErrSyntax);
        }
      }
      assert m == Magnitude(s);
      n := 0;
      var i := 0;
      while i < |m|
        invariant 0 <= i <= |m|
        invariant AllDigits(m[..i])
        invariant n == Value(m[..i])
      {
        if !IsDigit(m[i]) {
          return 0, Some(ErrSyntax);
        }
        ValueStep(m, i);
        n := n * 10 + DigitValue(m[i]);
        i := i + 1;
      }
      assert m[..i] == m;
      ValueBound(m);
      Pow10Monotone(|m|, 18);
      Pow10Of18();
      if s[0] == '-' {
        n := -n;
      }
      return n, None;
    }
    n, err := ParseInt(s);
  }
}
