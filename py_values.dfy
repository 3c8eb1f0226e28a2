/** The Python values that the command builder of demo.py inspects: optional
    strings and integers, floats, what `if value:` makes of each of them, and
    the decimal text `str(n)` gives for an integer. */
module PyValues {

  datatype Option<+T> = None | Some(value: T)

  /** A Python float: its numeric value and the text `str()` renders for it.
      The rendering itself (shortest round-tripping repr) is not modelled;
      the text travels with the value. */
  datatype PyFloat = PyFloat(value: real, text: string)

  /** `if s:` for a parameter that holds None or a str: only a non-empty
      string is truthy. */
  predicate StrTruthy(s: Option<string>)
  {
    s.Some? && |s.value| != 0
  }

  /** `if n:` for a parameter that holds None or an int: zero is falsy,
      every other integer (negative ones included) is truthy. */
  predicate IntTruthy(n: Option<int>)
  {
    n.Some? && n.value != 0
  }

  /** `if x:` for a parameter that holds None or a float: 0.0 is falsy. */
  predicate FloatTruthy(x: Option<PyFloat>)
  {
    x.Some? && x.value.value != 0.0
  }

  // ---------------------------------------------------------------------
  // str(int): decimal rendering, and int(text) to read it back

  predicate IsDigit(c: char)
  {
    '0' <= c <= '9'
  }

  function Digit(d: nat): (c: char)
    requires d < 10
    ensures IsDigit(c)
  {
    ('0' as int + d) as char
  }

  function DigitValue(c: char): (d: nat)
    requires IsDigit(c)
    ensures d < 10 && Digit(d) == c
  {
    c as int - '0' as int
  }

  /** Decimal digits of `n`, most significant first, without leading zeros. */
  function NatToString(n: nat): (s: string)
    ensures |s| >= 1
    ensures forall i :: 0 <= i < |s| ==> IsDigit(s[i])
    ensures s[0] == '0' ==> n == 0 && s == "0"
    decreases n
  {
    if n < 10 then [Digit(n)] else NatToString(n / 10) + [Digit(n % 10)]
  }

  /** Decimal digits without a leading zero, unless the text is "0" itself. */
  predicate CanonicalDigits(d: string)
  {
    |d| >= 1 && (forall i :: 0 <= i < |d| ==> IsDigit(d[i])) && (d[0] == '0' ==> d == "0")
  }

  /** The shape of the texts `str` gives for an int: canonical digits, after
      a minus sign for a negative value ("-0" is not one of them). */
  predicate Canonical(s: string)
  {
    if s != [] && s[0] == '-' then CanonicalDigits(s[1..]) && s[1..] != "0"
    else CanonicalDigits(s)
  }

  /** `str(n)` for a Python int: a leading minus sign for negative values. */
  function IntToString(n: int): (s: string)
    ensures Canonical(s)
    ensures s[0] == '-' <==> n < 0
  {
    if n < 0 then
      var d := NatToString(-n);
      assert ("-" + d)[1..] == d;
      "-" + d
    else NatToString(n)
  }

  function ParseNat(s: string): nat
    requires forall i :: 0 <= i < |s| ==> IsDigit(s[i])
    decreases |s|
  {
    if s == [] then 0 else ParseNat(s[..|s| - 1]) * 10 + DigitValue(s[|s| - 1])
  }

  /** `int(s)` restricted to the texts `str` produces. */
  function ParseInt(s: string): Option<int>
  {
    if s != [] && s[0] == '-' && |s| >= 2 && forall i :: 1 <= i < |s| ==> IsDigit(s[i]) then
      var magnitude: int := ParseNat(s[1..]);
      Some(-magnitude)
    else if s != [] && forall i :: 0 <= i < |s| ==> IsDigit(s[i]) then
      Some(ParseNat(s))
    else
      None
  }

  lemma {:induction false} NatRoundTrip(n: nat)
    ensures ParseNat(NatToString(n)) == n
    decreases n
  {
    if n >= 10 {
      var s := NatToString(n);
      assert s[..|s| - 1] == NatToString(n / 10);
      NatRoundTrip(n / 10);
    }
  }

  /** Reading back the text of `str(n)` gives `n`: the rendering loses nothing. */
  lemma {:induction false} IntRoundTrip(n: int)
    ensures ParseInt(IntToString(n)) == Some(n)
  {
    var s := IntToString(n);
    if n < 0 {
      var m: nat := -n;
      assert s == "-" + NatToString(m);
      assert s[1..] == NatToString(m);
      assert forall i :: 1 <= i < |s| ==> IsDigit(s[i]);
      NatRoundTrip(m);
    } else {
      assert s == NatToString(n);
      NatRoundTrip(n);
    }
  }

  /** Canonical digits other than "0" stand for a positive number. */
  lemma {:induction false} ParseNatPositive(d: string)
    requires CanonicalDigits(d) && d != "0"
    ensures ParseNat(d) >= 1
    decreases |d|
  {
    if |d| >= 2 {
      var front := d[..|d| - 1];
      assert front[0] == d[0];
      ParseNatPositive(front);
    }
  }

  lemma {:induction false} CanonicalDigitsRoundTrip(d: string)
    requires CanonicalDigits(d)
    ensures NatToString(ParseNat(d)) == d
    decreases |d|
  {
    var n := ParseNat(d);
    if |d| >= 2 {
      var front := d[..|d| - 1];
      assert front[0] == d[0];
      ParseNatPositive(front);
      CanonicalDigitsRoundTrip(front);
      assert n / 10 == ParseNat(front) && n % 10 == DigitValue(d[|d| - 1]);
      assert d == front + [d[|d| - 1]];
    }
  }

  /** Every canonical text reads back as an integer whose `str` is that very
      text: with IntRoundTrip, `str` is a bijection between the integers and
      the canonical texts, so a canonical text that reads back as `n` is
      `str(n)`. */
  lemma CanonicalRoundTrip(s: string)
    requires Canonical(s)
    ensures ParseInt(s).Some? && IntToString(ParseInt(s).value) == s
  {
    if s[0] == '-' {
      var d := s[1..];
      ParseNatPositive(d);
      CanonicalDigitsRoundTrip(d);
      assert forall i :: 1 <= i < |s| ==> IsDigit(s[i]) by {
        forall i | 1 <= i < |s|
          ensures IsDigit(s[i])
        {
          assert s[i] == d[i - 1];
        }
      }
      assert s == "-" + d;
    } else {
      CanonicalDigitsRoundTrip(s);
    }
  }
}
