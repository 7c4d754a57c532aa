/** The two Python string builtins the sensors rely on: `str.split(sep)` with an
    explicit separator, and `str()` of an integer (its decimal form). */
module PyText {

  /** `s.split(sep)`: the maximal runs of `s` between separators, empty runs
      included, so the result is never empty (`"".split(".") == [""]`). */
  function Split(s: string, sep: char): (parts: seq<string>)
    ensures |parts| >= 1
    ensures forall i :: 0 <= i < |parts| ==> sep !in parts[i]
    decreases |s|
  {
    if s == [] then [""]
    else
      var rest := Split(s[1..], sep);
      if s[0] == sep then [""] + rest
      else [[s[0]] + rest[0]] + rest[1..]
  }

  /** `sep.join(parts)`, the inverse of Split. */
  function Join(parts: seq<string>, sep: char): string
  {
    if |parts| == 0 then ""
    else if |parts| == 1 then parts[0]
    else parts[0] + [sep] + Join(parts[1..], sep)
  }

  /** Joining the pieces of a split gives back the original string. */
  lemma {:induction false} JoinSplit(s: string, sep: char)
    ensures Join(Split(s, sep), sep) == s
    decreases |s|
  {
    if s != [] {
      var rest := Split(s[1..], sep);
      JoinSplit(s[1..], sep);
      if s[0] == sep {
        assert ([""] + rest)[1..] == rest;
        assert s == [sep] + s[1..];
      } else {
        var parts := [[s[0]] + rest[0]] + rest[1..];
        assert parts[1..] == rest[1..];
        if |rest| == 1 {
          assert s == [s[0]] + rest[0];
        } else {
          assert Join(rest, sep) == rest[0] + [sep] + Join(rest[1..], sep);
          assert s == [s[0]] + rest[0] + [sep] + Join(rest[1..], sep);
        }
      }
    }
  }

  /** A prefix free of separators is glued onto the first piece of the rest. */
  lemma {:induction false} SplitPrefix(p: string, t: string, sep: char)
    requires sep !in p
    ensures Split(p + t, sep) == [p + Split(t, sep)[0]] + Split(t, sep)[1..]
    decreases |p|
  {
    if p != [] {
      SplitPrefix(p[1..], t, sep);
      assert (p + t)[0] == p[0];
      assert (p + t)[1..] == p[1..] + t;
      assert [p[0]] + (p[1..] + Split(t, sep)[0]) == p + Split(t, sep)[0];
    } else {
      var parts := Split(t, sep);
      assert p + t == t && p + parts[0] == parts[0];
      assert parts == [parts[0]] + parts[1..];
    }
  }

  /** Splitting a join of separator-free pieces gives back the pieces. */
  lemma {:induction false} SplitJoin(parts: seq<string>, sep: char)
    requires |parts| >= 1
    requires forall i :: 0 <= i < |parts| ==> sep !in parts[i]
    ensures Split(Join(parts, sep), sep) == parts
    decreases |parts|
  {
    if |parts| == 1 {
      SplitPrefix(parts[0], "", sep);
      assert parts[0] + "" == parts[0];
    } else {
      var t := [sep] + Join(parts[1..], sep);
      SplitJoin(parts[1..], sep);
      assert t[0] == sep && t[1..] == Join(parts[1..], sep);
      assert Split(t, sep) == [""] + parts[1..];
      SplitPrefix(parts[0], t, sep);
      assert parts[0] + [sep] + Join(parts[1..], sep) == parts[0] + t;
      assert parts[0] + "" == parts[0];
      assert parts == [parts[0]] + parts[1..];
    }
  }

  /** A string without the separator splits into itself; with exactly one
      separator, into the two pieces around it. */
  lemma SplitOnce(p: string, q: string, sep: char)
    requires sep !in p && sep !in q
    ensures Split(p, sep) == [p]
    ensures Split(p + [sep] + q, sep) == [p, q]
  {
    SplitJoin([p], sep);
    SplitJoin([p, q], sep);
    assert Join([p, q], sep) == p + [sep] + Join([q], sep);
  }

  // ---- str() of an integer ----

  predicate IsDigit(c: char) { '0' <= c <= '9' }

  function DigitChar(d: nat): (c: char)
    requires d < 10
  {
    ['0', '1', '2', '3', '4', '5', '6', '7', '8', '9'][d]
  }

  function DigitValue(c: char): nat
    requires IsDigit(c)
  {
    (c as int - '0' as int) as nat
  }

  /** Decimal digits of a natural number, most significant first, no leading zero. */
  function NatToDecimal(n: nat): (s: string)
    decreases n
  {
    if n < 10 then [DigitChar(n)] else NatToDecimal(n / 10) + [DigitChar(n % 10)]
  }

  /** Value of a string of decimal digits, the partner of NatToDecimal. */
  function DecimalToNat(s: string): nat
    requires forall i :: 0 <= i < |s| ==> IsDigit(s[i])
    decreases |s|
  {
    if s == [] then 0 else 10 * DecimalToNat(s[..|s| - 1]) + DigitValue(s[|s| - 1])
  }

  /** Python `str(n)` for an int: an optional minus sign and the digits. */
  function IntToDecimal(n: int): string
  {
    if n < 0 then "-" + NatToDecimal(-n) else NatToDecimal(n)
  }

  predicate IsDecimal(s: string)
  {
    if |s| > 0 && s[0] == '-' then |s| > 1 && forall i :: 1 <= i < |s| ==> IsDigit(s[i])
    else |s| > 0 && forall i :: 0 <= i < |s| ==> IsDigit(s[i])
  }

  /** The form `str()` gives an int: no leading zero, except for `0` itself,
      and no minus sign before zero. */
  predicate IsCanonicalDecimal(s: string)
  {
    && IsDecimal(s)
    && (s[0] == '-' ==> s[1] != '0')
    && (s[0] == '0' ==> |s| == 1)
  }

  /** Python `int(s)` on an optionally signed digit string. */
  function DecimalToInt(s: string): int
    requires IsDecimal(s)
  {
    if s[0] == '-' then -(DecimalToNat(s[1..]) as int) else DecimalToNat(s)
  }

  lemma {:induction false} NatDecimalRoundTrip(n: nat)
    ensures |NatToDecimal(n)| >= 1
    ensures forall i :: 0 <= i < |NatToDecimal(n)| ==> IsDigit(NatToDecimal(n)[i])
    ensures NatToDecimal(n)[0] == '0' ==> n == 0
    ensures DecimalToNat(NatToDecimal(n)) == n
    decreases n
  {
    if n >= 10 {
      var s := NatToDecimal(n / 10);
      NatDecimalRoundTrip(n / 10);
      var t := s + [DigitChar(n % 10)];
      assert t[..|t| - 1] == s;
      assert forall i :: 0 <= i < |t| ==> IsDigit(t[i]) by {
        forall i | 0 <= i < |t| ensures IsDigit(t[i]) {
          if i < |s| { assert t[i] == s[i]; }
        }
      }
      assert DecimalToNat(t) == 10 * DecimalToNat(s) + DigitValue(t[|t| - 1]);
    }
  }

  /** `int(str(n)) == n`: the decimal form of an int determines it. */
  lemma IntDecimalRoundTrip(n: int)
    ensures IsCanonicalDecimal(IntToDecimal(n))
    ensures IntToDecimal(n)[0] == '-' <==> n < 0
    ensures DecimalToInt(IntToDecimal(n)) == n
  {
    if n < 0 {
      NatDecimalRoundTrip(-n);
      var s := IntToDecimal(n);
      assert s[1..] == NatToDecimal(-n);
      assert forall i :: 1 <= i < |s| ==> s[i] == NatToDecimal(-n)[i - 1];
    } else {
      NatDecimalRoundTrip(n);
    }
  }

  // ---- a canonical numeral is determined by its value ----

  function Pow10(n: nat): nat
  {
    if n == 0 then 1 else 10 * Pow10(n - 1)
  }

  predicate AllDigits(s: string)
  {
    forall i :: 0 <= i < |s| ==> IsDigit(s[i])
  }

  lemma {:induction false} Pow10Monotone(a: nat, b: nat)
    requires a <= b
    ensures Pow10(a) <= Pow10(b)
    decreases b
  {
    if a < b {
      Pow10Monotone(a, b - 1);
    }
  }

  /** A numeral of `k` digits is below `10^k`. */
  lemma {:induction false} DecimalBelow(s: string)
    requires AllDigits(s)
    ensures DecimalToNat(s) < Pow10(|s|)
    decreases |s|
  {
    if s != [] {
      DecimalBelow(s[..|s| - 1]);
    }
  }

  /** A numeral of `k` digits without a leading zero is at least `10^(k-1)`. */
  lemma {:induction false} DecimalAbove(s: string)
    requires AllDigits(s) && |s| >= 1 && s[0] != '0'
    ensures DecimalToNat(s) >= Pow10(|s| - 1)
    decreases |s|
  {
    var p := s[..|s| - 1];
    if |s| == 1 {
      assert p == [];
    } else {
      assert p[0] == s[0];
      DecimalAbove(p);
    }
  }

  /** Numerals of the same length with the same value are equal. */
  lemma {:induction false} DecimalSameLength(s: string, t: string)
    requires AllDigits(s) && AllDigits(t) && |s| == |t|
    requires DecimalToNat(s) == DecimalToNat(t)
    ensures s == t
    decreases |s|
  {
    if s != [] {
      var ps, pt := s[..|s| - 1], t[..|t| - 1];
      var ds, dt := DigitValue(s[|s| - 1]), DigitValue(t[|t| - 1]);
      assert 10 * DecimalToNat(ps) + ds == 10 * DecimalToNat(pt) + dt;
      assert ds == dt && DecimalToNat(ps) == DecimalToNat(pt);
      DecimalSameLength(ps, pt);
      assert s == ps + [s[|s| - 1]] && t == pt + [t[|t| - 1]];
    }
  }

  /** Digit strings without a leading zero (other than `0`) with the same
      value are equal. */
  lemma NatNumeralUnique(s: string, t: string)
    requires AllDigits(s) && |s| >= 1 && (s[0] == '0' ==> |s| == 1)
    requires AllDigits(t) && |t| >= 1 && (t[0] == '0' ==> |t| == 1)
    requires DecimalToNat(s) == DecimalToNat(t)
    ensures s == t
  {
    if |s| < |t| {
      DecimalBelow(s);
      DecimalAbove(t);
      Pow10Monotone(|s|, |t| - 1);
    } else if |t| < |s| {
      DecimalBelow(t);
      DecimalAbove(s);
      Pow10Monotone(|t|, |s| - 1);
    } else {
      DecimalSameLength(s, t);
    }
  }

  /** `str()` of an int is the only canonical numeral of its value: a
      canonical numeral that parses to `n` is `IntToDecimal(n)`. */
  lemma CanonicalDecimalUnique(s: string, t: string)
    requires IsCanonicalDecimal(s) && IsCanonicalDecimal(t)
    requires DecimalToInt(s) == DecimalToInt(t)
    ensures s == t
  {
    // a leading minus sign makes the value negative
    if s[0] == '-' {
      DecimalAbove(s[1..]);
      Pow10Monotone(0, |s| - 2);
    }
    if t[0] == '-' {
      DecimalAbove(t[1..]);
      Pow10Monotone(0, |t| - 2);
    }
    if s[0] == '-' && t[0] == '-' {
      NatNumeralUnique(s[1..], t[1..]);
      assert s == [s[0]] + s[1..] && t == [t[0]] + t[1..];
    } else if s[0] != '-' && t[0] != '-' {
      NatNumeralUnique(s, t);
    }
  }
}
