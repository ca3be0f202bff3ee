/** Kotlin's 32-bit `Int` and the two conversions between it and text that the
    build configuration relies on: `String.toIntOrNull()` (radix 10), which
    turns property values into numbers, and `Int.toString()`, which turns the
    builder's `jvmTarget` into the string handed to `JvmTarget.fromTarget`. */
module KotlinInt {
  import opened Wrappers

  const MinValue: int := -0x8000_0000
  const MaxValue: int := 0x7fff_ffff

  /** Kotlin `Int`: the values a 32-bit two's-complement integer can hold. */
  type Int32 = x: int | MinValue <= x <= MaxValue

  predicate IsDigit(c: char) {
    '0' <= c <= '9'
  }

  function DigitValue(c: char): nat
    requires IsDigit(c)
  {
    (c as int) - ('0' as int)
  }

  function DigitChar(d: nat): (c: char)
    requires d < 10
    ensures IsDigit(c) && DigitValue(c) == d
  {
    (('0' as int) + d) as char
  }

  predicate AllDigits(s: string) {
    forall i :: 0 <= i < |s| ==> IsDigit(s[i])
  }

  /** The number a run of decimal digits denotes, most significant first
      (leading zeros allowed). */
  function DigitsValue(ds: string): nat
    requires AllDigits(ds)
    decreases |ds|
  {
    if ds == [] then 0
    else DigitsValue(ds[..|ds| - 1]) * 10 + DigitValue(ds[|ds| - 1])
  }

  // ---------------------------------------------------------------------------
  // Reference grammar of a radix-10 integer literal accepted by toIntOrNull:
  // an optional '+' or '-' followed by one or more digits, nothing else.

  predicate HasSign(s: string) {
    |s| > 0 && (s[0] == '+' || s[0] == '-')
  }

  /** The part of `s` after an optional sign. */
  function Magnitude(s: string): string {
    if HasSign(s) then s[1..] else s
  }

  predicate IsDecimal(s: string) {
    |Magnitude(s)| > 0 && AllDigits(Magnitude(s))
  }

  /** The mathematical value of a decimal literal, without any range limit. */
  function DecimalValue(s: string): int
    requires IsDecimal(s)
  {
    var m: int := DigitsValue(Magnitude(s));
    if s[0] == '-' then -m else m
  }

  // ---------------------------------------------------------------------------
  // toIntOrNull as the standard library computes it: look at the first
  // character for a sign, then scan the digits left to right, accumulating the
  // magnitude and giving up as soon as it passes the limit for that sign
  // (2^31 for a negative literal, 2^31 - 1 otherwise).

  lemma {:induction false} DigitsValuePrefix(p: string, q: string)
    requires AllDigits(p + q)
    ensures AllDigits(p) && AllDigits(q)
    ensures DigitsValue(p) <= DigitsValue(p + q)
    decreases |q|
  {
    assert forall i :: 0 <= i < |p| ==> (p + q)[i] == p[i];
    assert forall i :: 0 <= i < |q| ==> (p + q)[|p| + i] == q[i];
    if q != [] {
      var q' := q[..|q| - 1];
      assert (p + q)[..|p + q| - 1] == p + q';
      assert AllDigits(p + q') by {
        assert forall i :: 0 <= i < |p + q'| ==> (p + q')[i] == (p + q)[i];
      }
      DigitsValuePrefix(p, q');
      assert DigitsValue(p + q) == DigitsValue(p + q') * 10 + DigitValue((p + q)[|p + q| - 1]);
    } else {
      assert p + q == p;
    }
  }

  /** Scans `s[i..]` with `acc` the value of the digits `s[start..i]` already
      read; fails on a non-digit or once the magnitude exceeds `limit`. */
  function ScanDigits(s: string, start: nat, i: nat, acc: nat, limit: nat): (r: Option<nat>)
    requires start <= i <= |s|
    requires AllDigits(s[start..i]) && acc == DigitsValue(s[start..i])
    requires acc <= limit
    ensures r.Some? <==> AllDigits(s[start..]) && DigitsValue(s[start..]) <= limit
    ensures r.Some? ==> r.value == DigitsValue(s[start..]) && r.value <= limit
    decreases |s| - i
  {
    if i == |s| then
      assert s[start..i] == s[start..];
      Some(acc)
    else if !IsDigit(s[i]) then
      assert s[start..][i - start] == s[i];
      None
    else
      var next := acc * 10 + DigitValue(s[i]);
      assert s[start..i + 1][..i - start] == s[start..i];
      assert AllDigits(s[start..i + 1]) && next == DigitsValue(s[start..i + 1]);
      if next > limit then
        assert s[start..] == s[start..i + 1] + s[i + 1..];
        assert AllDigits(s[start..]) ==> DigitsValue(s[start..]) > limit by {
          if AllDigits(s[start..]) {
            DigitsValuePrefix(s[start..i + 1], s[i + 1..]);
          }
        }
        None
      else
        ScanDigits(s, start, i + 1, next, limit)
  }

  /** `String.toIntOrNull()`: the literal's value when `s` is an optionally
      signed run of decimal digits whose value fits in an `Int`, else null. */
  function ToIntOrNull(s: string): (r: Option<Int32>)
    ensures r.Some? <==> IsDecimal(s) && MinValue <= DecimalValue(s) <= MaxValue
    ensures r.Some? ==> r.value == DecimalValue(s)
  {
    if |s| == 0 then None
    else if s[0] < '0' then
      // a possible sign: it needs at least one character after it
      if |s| == 1 then None
      else if s[0] == '-' then
        match ScanDigits(s, 1, 1, 0, -MinValue)
        case None => None
        case Some(m) => var v: Int32 := -(m as int); Some(v)
      else if s[0] == '+' then
        match ScanDigits(s, 1, 1, 0, MaxValue)
        case None => None
        case Some(m) => Some(m)
      else None
    else
      assert s[0..] == s;
      match ScanDigits(s, 0, 0, 0, MaxValue)
      case None => None
      case Some(m) => Some(m)
  }

  // ---------------------------------------------------------------------------
  // Int.toString(): shortest decimal form, with a '-' for negatives.

  function NatToDigits(n: nat): (s: string)
    ensures |s| > 0 && AllDigits(s)
    ensures s[0] == '0' ==> s == "0"
    decreases n
  {
    if n < 10 then [DigitChar(n)]
    else NatToDigits(n / 10) + [DigitChar(n % 10)]
  }

  /** The shortest decimal form: no '+', and no leading zero unless the
      whole literal is "0". */
  predicate IsShortestDecimal(s: string) {
    IsDecimal(s) && s[0] != '+' && (Magnitude(s)[0] == '0' ==> s == "0")
  }

  /** `Int.toString()`: the shortest decimal literal denoting `n`, with a '-'
      exactly for negatives. */
  function IntToString(n: int): (s: string)
    ensures IsShortestDecimal(s) && DecimalValue(s) == n
    ensures s[0] == '-' <==> n < 0
  {
    var m: nat := if n < 0 then -n else n;
    NatToDigitsValue(m);
    var digits := NatToDigits(m);
    if n < 0 then
      assert Magnitude("-" + digits) == digits;
      "-" + digits
    else digits
  }

  /** A digit run that does not start with '0' denotes a positive number. */
  lemma LeadingDigitPositive(ds: string)
    requires |ds| > 0 && AllDigits(ds) && ds[0] != '0'
    ensures DigitsValue(ds) > 0
  {
    assert ds == ds[..1] + ds[1..];
    DigitsValuePrefix(ds[..1], ds[1..]);
    assert DigitsValue(ds[..1]) == DigitsValue([]) * 10 + DigitValue(ds[0]);
  }

  lemma DecimalPlaceUnique(x: nat, d: nat, y: nat, e: nat)
    requires d < 10 && e < 10 && x * 10 + d == y * 10 + e
    ensures x == y && d == e
  {
  }

  /** Two digit runs without a leading zero that denote the same number are
      the same run. */
  lemma {:induction false} DigitsUnique(a: string, b: string)
    requires |a| > 0 && AllDigits(a) && a[0] != '0'
    requires |b| > 0 && AllDigits(b) && b[0] != '0'
    requires DigitsValue(a) == DigitsValue(b)
    ensures a == b
    decreases |a|
  {
    var a', b' := a[..|a| - 1], b[..|b| - 1];
    DecimalPlaceUnique(DigitsValue(a'), DigitValue(a[|a| - 1]), DigitsValue(b'), DigitValue(b[|b| - 1]));
    assert a == a' + [a[|a| - 1]] && b == b' + [b[|b| - 1]];
    if a' != [] && b' != [] {
      DigitsUnique(a', b');
    } else if a' != [] {
      LeadingDigitPositive(a');
    } else if b' != [] {
      LeadingDigitPositive(b');
    }
  }

  /** The shortest decimal form of a number is unique, so it is the one
      `Int.toString()` prints. */
  lemma ShortestDecimalIsToString(s: string)
    requires IsShortestDecimal(s)
    ensures s == IntToString(DecimalValue(s))
  {
    var t := IntToString(DecimalValue(s));
    var ms, mt := Magnitude(s), Magnitude(t);
    if ms[0] == '0' {
      if mt[0] != '0' {
        LeadingDigitPositive(mt);
      }
    } else if mt[0] == '0' {
      LeadingDigitPositive(ms);
    } else {
      LeadingDigitPositive(ms);
      LeadingDigitPositive(mt);
      assert (s[0] == '-') == (t[0] == '-');
      DigitsUnique(ms, mt);
      assert s == (if HasSign(s) then [s[0]] + ms else ms);
      assert t == (if HasSign(t) then [t[0]] + mt else mt);
    }
  }

  lemma {:induction false} NatToDigitsValue(n: nat)
    ensures DigitsValue(NatToDigits(n)) == n
    decreases n
  {
    if n >= 10 {
      var s := NatToDigits(n);
      assert s[..|s| - 1] == NatToDigits(n / 10);
      NatToDigitsValue(n / 10);
    }
  }

  /** Parsing what `Int.toString()` prints gives the number back. */
  lemma ToStringRoundTrip(n: Int32)
    ensures ToIntOrNull(IntToString(n)) == Some(n)
  {
    var s := IntToString(n);
    if n < 0 {
      var m: nat := -(n as int);
      NatToDigitsValue(m);
      assert Magnitude(s) == NatToDigits(m);
    } else {
      NatToDigitsValue(n);
      assert Magnitude(s) == NatToDigits(n);
    }
  }

  /** Edge cases of the literal syntax: leading zeros and an explicit '+' are
      accepted; an empty string, a lone sign, letters, blanks and values one
      past either end of the `Int` range are rejected. */
  lemma ToIntOrNullExamples()
    ensures ToIntOrNull("007") == Some(7)
    ensures ToIntOrNull("+5") == Some(5)
    ensures ToIntOrNull("-0") == Some(0)
    ensures ToIntOrNull("") == None
    ensures ToIntOrNull("-") == None
    ensures ToIntOrNull("+") == None
    ensures ToIntOrNull("abc") == None
    ensures ToIntOrNull(" 1") == None
    ensures ToIntOrNull("1 ") == None
  {
    assert Magnitude("007") == "007";
    assert "007"[..2] == "00" && "00"[..1] == "0";
    assert Magnitude("+5") == "5";
    assert Magnitude("-0") == "0";
    assert !IsDigit("1 "[1]);
  }

  /** `NatToDigits` spelled out for the first nine digits of 2^31. */
  lemma NatToDigitsNearLimit()
    ensures NatToDigits(214748364) == "214748364"
  {
    assert NatToDigits(2) == "2";
    assert NatToDigits(21) == "21";
    assert NatToDigits(214) == "214";
    assert NatToDigits(2147) == "2147";
    assert NatToDigits(21474) == "21474";
    assert NatToDigits(214748) == "214748";
    assert NatToDigits(2147483) == "2147483";
    assert NatToDigits(21474836) == "21474836";
    assert NatToDigits(214748364) == "214748364";
  }

  lemma ToIntOrNullMax()
    ensures ToIntOrNull("2147483647") == Some(MaxValue)
  {
    NatToDigitsNearLimit();
    assert NatToDigits(2147483647) == "2147483647";
    NatToDigitsValue(2147483647);
    assert Magnitude("2147483647") == "2147483647";
  }

  lemma ToIntOrNullMin()
    ensures ToIntOrNull("-2147483648") == Some(MinValue)
  {
    NatToDigitsNearLimit();
    assert NatToDigits(2147483648) == "2147483648";
    NatToDigitsValue(2147483648);
    assert Magnitude("-2147483648") == "2147483648";
  }

  lemma ToIntOrNullOverflow()
    ensures ToIntOrNull("2147483648") == None
    ensures ToIntOrNull("+2147483648") == None
  {
    NatToDigitsNearLimit();
    assert NatToDigits(2147483648) == "2147483648";
    NatToDigitsValue(2147483648);
    assert Magnitude("2147483648") == "2147483648";
    assert Magnitude("+2147483648") == "2147483648";
  }

  lemma ToIntOrNullUnderflow()
    ensures ToIntOrNull("-2147483649") == None
  {
    NatToDigitsNearLimit();
    assert NatToDigits(2147483649) == "2147483649";
    NatToDigitsValue(2147483649);
    assert Magnitude("-2147483649") == "2147483649";
  }

  /** The range ends: -2^31 and 2^31 - 1 parse, one step beyond does not. */
  lemma ToIntOrNullBounds()
    ensures ToIntOrNull("2147483647") == Some(MaxValue)
    ensures ToIntOrNull("-2147483648") == Some(MinValue)
    ensures ToIntOrNull("2147483648") == None
    ensures ToIntOrNull("+2147483648") == None
    ensures ToIntOrNull("-2147483649") == None
  {
    ToIntOrNullMax();
    ToIntOrNullMin();
    ToIntOrNullOverflow();
    ToIntOrNullUnderflow();
  }
}
