/** Decimal rendering of integers, as Go's `strconv.Itoa` does it: the digits of
    the magnitude with no leading zeros, preceded by `-` for a negative value.
    `ParseCanonical` is an independent reading of such strings; the two are
    proved to be inverse on exactly the canonical renderings. */
module Decimal {
  import opened Wrappers

  predicate IsDigit(c: char) {
    '0' <= c <= '9'
  }

  predicate AllDigits(s: string) {
    forall k :: 0 <= k < |s| ==> IsDigit(s[k])
  }

  function DigitValue(c: char): (d: nat)
    requires IsDigit(c)
    ensures d < 10
  {
    c as int - '0' as int
  }

  function DigitChar(d: nat): (c: char)
    requires d < 10
    ensures IsDigit(c) && DigitValue(c) == d
  {
    ('0' as int + d) as char
  }

  /** A non-empty string of digits that does not start with `0`, unless it is `0` itself. */
  predicate Canonical(s: string) {
    |s| >= 1 && AllDigits(s) && (s[0] == '0' ==> |s| == 1)
  }

  /** The number a string of decimal digits denotes (leading zeros allowed). */
  function Value(s: string): nat
    requires AllDigits(s)
  {
    if s == [] then 0 else 10 * Value(s[..|s| - 1]) + DigitValue(s[|s| - 1])
  }

  /** The decimal digits of a natural number, most significant first. */
  function Digits(n: nat): (s: string)
    ensures Canonical(s)
    ensures s[0] == '0' <==> n == 0
  {
    if n < 10 then [DigitChar(n)] else Digits(n / 10) + [DigitChar(n % 10)]
  }

  /** `strconv.Itoa`. */
  function Itoa(i: int): (s: string)
    ensures |s| >= 1
  {
    if i < 0 then "-" + Digits(-i) else Digits(i)
  }

  /** Reads back exactly the strings `Itoa` can produce: a canonical digit string,
      or `-` followed by a canonical digit string other than `0`. */
  function ParseCanonical(s: string): (r: Option<int>)
  {
    if |s| >= 2 && s[0] == '-' && Canonical(s[1..]) && s[1] != '0' then Some(-(Value(s[1..]) as int))
    else if Canonical(s) then Some(Value(s))
    else None
  }

  lemma {:induction false} ValueOfDigits(n: nat)
    ensures Value(Digits(n)) == n
  {
    if n >= 10 {
      var s := Digits(n);
      assert s[..|s| - 1] == Digits(n / 10);
      ValueOfDigits(n / 10);
    }
  }

  lemma {:induction false} ValuePositive(s: string)
    requires |s| >= 1 && AllDigits(s) && s[0] != '0'
    ensures Value(s) >= 1
  {
    if |s| > 1 {
      ValuePositive(s[..|s| - 1]);
    }
  }

  lemma {:induction false} DigitsOfValue(s: string)
    requires Canonical(s)
    ensures Digits(Value(s)) == s
  {
    var p := s[..|s| - 1];
    if |s| == 1 {
      assert DigitChar(DigitValue(s[0])) == s[0];
    } else {
      assert Canonical(p);
      ValuePositive(p);
      DigitsOfValue(p);
      var d := DigitValue(s[|s| - 1]);
      assert Value(s) / 10 == Value(p) && Value(s) % 10 == d;
      assert DigitChar(d) == s[|s| - 1];
      assert s == p + [s[|s| - 1]];
    }
  }

  /** Rendering then reading gives the number back. */
  lemma {:induction false} ParseItoa(i: int)
    ensures ParseCanonical(Itoa(i)) == Some(i)
  {
    if i < 0 {
      var t := Digits(-i);
      assert Itoa(i)[1..] == t;
      ValueOfDigits(-i);
    } else {
      ValueOfDigits(i);
    }
  }

  /** Whatever is read back is rendered to the very same string. */
  lemma {:induction false} ItoaParse(s: string, i: int)
    requires ParseCanonical(s) == Some(i)
    ensures Itoa(i) == s
  {
    if |s| >= 2 && s[0] == '-' && Canonical(s[1..]) && s[1] != '0' {
      ValuePositive(s[1..]);
      DigitsOfValue(s[1..]);
      assert s == "-" + s[1..];
    } else {
      DigitsOfValue(s);
    }
  }

  /** `Itoa(i) == s` holds exactly when `s` reads back as `i`: the textual
      comparison the lookups make is a numeric comparison on canonical keys
      and fails on every other key. */
  lemma {:induction false} ItoaMatches(i: int, s: string)
    ensures Itoa(i) == s <==> ParseCanonical(s) == Some(i)
  {
    ParseItoa(i);
    if ParseCanonical(s) == Some(i) {
      ItoaParse(s, i);
    }
  }

  lemma {:induction false} ItoaInjective(a: int, b: int)
    ensures Itoa(a) == Itoa(b) <==> a == b
  {
    ParseItoa(a);
    ParseItoa(b);
  }

  /** No integer renders as a digit string of two or more characters that
      starts with `0`. */
  lemma {:induction false} LeadingZeroNeverRendered(s: string, i: int)
    requires |s| >= 2 && AllDigits(s) && s[0] == '0'
    ensures Itoa(i) != s
  {
  }
}
