/**
 * The conversions of Go's `strconv` package (and the one `fmt` verb) that the
 * codec uses, on unbounded integers. Floating-point values are modelled as an
 * exact count of hundredths, which is what the codec's two-decimal rendering
 * sees of them.
 */
module GoStrconv {
  import opened Wrappers
  import opened GoStrings

  predicate IsDigit(c: char) {
    '0' <= c <= '9'
  }

  predicate AllDigits(s: string) {
    forall k :: 0 <= k < |s| ==> IsDigit(s[k])
  }

  predicate AllZeros(s: string) {
    forall k :: 0 <= k < |s| ==> s[k] == '0'
  }

  function DigitValue(c: char): nat
    requires IsDigit(c)
  {
    c as int - '0' as int
  }

  function DigitChar(d: nat): (c: char)
    requires d < 10
    ensures IsDigit(c) && DigitValue(c) == d
  {
    ('0' as int + d) as char
  }

  /** The number a string of decimal digits denotes, most significant first; "" denotes 0. */
  function DigitsValue(s: string): nat
    requires AllDigits(s)
  {
    if |s| == 0 then 0 else DigitsValue(s[..|s| - 1]) * 10 + DigitValue(s[|s| - 1])
  }

  /** Digits need no separator: the value of `a + b` shifts `a` by one place per digit of `b`. */
  lemma DigitsSnoc(a: string, c: char)
    requires AllDigits(a) && IsDigit(c)
    ensures AllDigits(a + [c]) && DigitsValue(a + [c]) == DigitsValue(a) * 10 + DigitValue(c)
  {
    assert (a + [c])[..|a|] == a;
  }

  /** Leading zeros do not change the value of a digit string. */
  lemma {:induction false} LeadingZeros(z: string, s: string)
    requires AllZeros(z) && AllDigits(s)
    ensures AllDigits(z + s) && DigitsValue(z + s) == DigitsValue(s)
  {
    if |s| == 0 {
      assert z + s == z;
      ZerosValue(z);
    } else {
      var s' := s[..|s| - 1];
      assert (z + s)[..|z + s| - 1] == z + s';
      LeadingZeros(z, s');
    }
  }

  lemma {:induction false} ZerosValue(z: string)
    requires AllZeros(z)
    ensures AllDigits(z) && DigitsValue(z) == 0
  {
    if |z| > 0 {
      ZerosValue(z[..|z| - 1]);
    }
  }

  // ----------------------------------------------------------------- integers

  /** `strconv.FormatUint(n, 10)`: the shortest decimal text of `n`, with no sign. */
  function FormatNat(n: nat): (r: string)
    ensures |r| >= 1 && AllDigits(r)
    ensures DigitsValue(r) == n
    ensures r[0] == '0' ==> n == 0
  {
    if n < 10 then [DigitChar(n)]
    else
      var r := FormatNat(n / 10) + [DigitChar(n % 10)];
      DigitsSnoc(FormatNat(n / 10), DigitChar(n % 10));
      r
  }

  /** `strconv.FormatInt(i, 10)`: a minus sign for negative numbers, then the digits of the magnitude. */
  function FormatInt(i: int): string {
    if i < 0 then "-" + FormatNat(-i) else FormatNat(i)
  }

  /** `FormatInt` is undone by `ParseInt`, and its text has no whitespace at either edge. */
  lemma FormatIntParses(i: int)
    ensures ParseInt(FormatInt(i)) == Some(i)
    ensures NoEdgeSpace(FormatInt(i)) && '\n' !in FormatInt(i)
  {
    var d := FormatNat(if i < 0 then -i else i);
    DigitsNoPoint(d);
    if i < 0 {
      assert FormatInt(i)[1..] == d;
    }
  }

  /**
   * `strconv.ParseUint(s, 10, 64)` without the 64-bit range check: one or
   * more decimal digits and nothing else (no sign, no underscores).
   */
  function ParseUint(s: string): Option<nat>
  {
    if |s| >= 1 && AllDigits(s) then Some(DigitsValue(s)) else None
  }

  /**
   * `strconv.ParseInt(s, 10, 64)` without the 64-bit range check: an optional
   * `+` or `-`, then what `ParseUint` accepts. `strconv.Atoi` accepts the
   * same text.
   */
  function ParseInt(s: string): Option<int>
  {
    if |s| == 0 then None
    else if s[0] == '+' || s[0] == '-' then
      match ParseUint(s[1..])
      case None => None
      case Some(n) => Some(if s[0] == '-' then -(n as int) else n as int)
    else
      match ParseUint(s)
      case None => None
      case Some(n) => Some(n)
  }

  /** Zero-filling a non-negative number on the left keeps its parsed value. */
  lemma ParseIntLeadingZeros(z: string, n: nat)
    requires AllZeros(z)
    ensures ParseInt(z + FormatNat(n)) == Some(n)
    ensures ParseUint(z + FormatNat(n)) == Some(n)
  {
    LeadingZeros(z, FormatNat(n));
    if |z| > 0 {
      assert (z + FormatNat(n))[0] == z[0];
    }
  }

  /** `strconv.FormatUint` and `strconv.ParseUint` are inverse on every unsigned value. */
  lemma ParseUintFormat(n: nat)
    ensures ParseUint(FormatNat(n)) == Some(n)
  {
  }

  // ------------------------------------------------------------------ booleans

  /** `strconv.ParseBool`: exactly the listed spellings of true and false are accepted. */
  function ParseBool(s: string): (r: Option<bool>)
  {
    if s in ["1", "t", "T", "TRUE", "true", "True"] then Some(true)
    else if s in ["0", "f", "F", "FALSE", "false", "False"] then Some(false)
    else None
  }

  // ---------------------------------------------- two-decimal fixed point

  function Abs(h: int): nat {
    if h < 0 then -h else h
  }

  /** The two fraction digits of `%.2f` for a value of `n` hundredths. */
  function Cents(n: nat): string {
    [DigitChar(n / 10 % 10), DigitChar(n % 10)]
  }

  lemma CentsDigits(n: nat)
    ensures |Cents(n)| == 2 && AllDigits(Cents(n))
  {
    assert IsDigit(DigitChar(n / 10 % 10)) && IsDigit(DigitChar(n % 10));
  }

  /**
   * `fmt.Sprintf("%.2f", x)` for `x` equal to `h` hundredths: an optional
   * minus sign, the integer part, a point and exactly two fraction digits.
   */
  function FormatFixed2(h: int): (r: string)
    ensures |r| >= 4 && r[|r| - 3] == '.' && IsDigit(r[|r| - 2]) && IsDigit(r[|r| - 1])
    ensures r[0] == '-' <==> h < 0
    ensures h >= 0 ==> IsDigit(r[0])
  {
    var n := Abs(h);
    var sign := if h < 0 then "-" else "";
    CentsDigits(n);
    sign + (Whole(n) + "." + Cents(n))
  }

  /**
   * `FormatFixed2` is undone by `ParseFixed2`; with its point deleted the
   * text reads as a hundred times the value; it has no whitespace at either
   * edge and no newline.
   */
  lemma FormatFixed2Parses(h: int)
    ensures ParseFixed2(FormatFixed2(h)) == Some(h)
    ensures ParseFixed2(RemoveFirst(FormatFixed2(h), '.')) == Some(100 * h)
    ensures NoEdgeSpace(FormatFixed2(h)) && '\n' !in FormatFixed2(h)
  {
    SignedFixed2Parses(if h < 0 then "-" else "", Abs(h));
  }

  /** The integer part of `%.2f` for a value of `n` hundredths. */
  function Whole(n: nat): string {
    FormatNat(n / 100)
  }

  /** The first `c` of `a + [c] + b`, when `a` holds none, sits right after `a`. */
  lemma IndexAfter(a: string, c: char, b: string)
    requires c !in a
    ensures IndexOf(a + [c] + b, c) == |a|
    ensures (a + [c] + b)[..|a|] == a && (a + [c] + b)[|a| + 1..] == b
  {
    var s := a + [c] + b;
    assert s[..|a|] == a;
    assert s[|a|] == c;
  }

  lemma DigitsNoPoint(s: string)
    requires AllDigits(s)
    ensures '.' !in s && '\n' !in s && '+' !in s && '-' !in s
  {
    assert forall k :: 0 <= k < |s| ==> s[k] != '.' && s[k] != '\n' && s[k] != '+' && s[k] != '-';
  }

  /** The last two decimal digits of `n`, as tens and units. */
  lemma TwoDigits(n: nat)
    ensures 10 * (n / 10 % 10) + n % 10 == n % 100
  {
    var q, r := n / 10, n % 10;
    var a, b := q / 10, q % 10;
    assert n == 10 * q + r;
    assert q == 10 * a + b;
    assert n == 100 * a + (10 * b + r);
    ModHundred(n, a, 10 * b + r);
  }

  lemma ModHundred(n: int, a: int, b: int)
    requires n == 100 * a + b && 0 <= b < 100
    ensures n % 100 == b
  {
  }

  /** Appending the two cents digits multiplies by 100 and adds the remainder. */
  lemma CentsValue(q: string, n: nat)
    requires AllDigits(q)
    ensures AllDigits(Cents(n)) && FractionValue(Cents(n)) == n % 100
    ensures AllDigits(q + Cents(n)) && DigitsValue(q + Cents(n)) == DigitsValue(q) * 100 + n % 100
  {
    var c := Cents(n);
    CentsDigits(n);
    TwoDigits(n);
    DigitsSnoc(q, c[0]);
    DigitsSnoc(q + [c[0]], c[1]);
    assert q + c == q + [c[0]] + [c[1]];
  }

  /** Digits, a point and at most two digits: whole part in hundredths plus the fraction. */
  lemma UnsignedPointParse(a: string, b: string)
    requires AllDigits(a) && AllDigits(b) && |a| >= 1 && |b| <= 2
    ensures UnsignedParseFixed2(a + ['.'] + b) == Some(DigitsValue(a) * 100 + FractionValue(b))
  {
    DigitsNoPoint(a);
    IndexAfter(a, '.', b);
    UnsignedParseAt(a + ['.'] + b, |a|);
  }

  /**
   * A text whose first point follows digits and precedes digits, of which
   * any beyond the second are zeros, reads as those digits.
   */
  lemma UnsignedParseAt(s: string, i: nat)
    requires i < |s| && IndexOf(s, '.') == i
    requires AllDigits(s[..i]) && AllDigits(s[i + 1..]) && i + |s[i + 1..]| >= 1
    requires |s[i + 1..]| <= 2 || AllZeros(s[i + 1..][2..])
    ensures UnsignedParseFixed2(s) == Some(DigitsValue(s[..i]) * 100 + FractionValue(s[i + 1..]))
  {
  }

  /** Zeros after the second fraction digit do not change the value. */
  lemma UnsignedPointZerosParse(a: string, b: string, z: string)
    requires AllDigits(a) && AllDigits(b) && |a| >= 1 && |b| == 2 && AllZeros(z)
    ensures UnsignedParseFixed2(a + ['.'] + (b + z)) == Some(DigitsValue(a) * 100 + FractionValue(b))
  {
    DigitsNoPoint(a);
    IndexAfter(a, '.', b + z);
    assert (b + z)[2..] == z;
    assert AllDigits(b + z);
    UnsignedParseAt(a + ['.'] + (b + z), |a|);
    assert (b + z)[0] == b[0] && (b + z)[1] == b[1];
  }

  /** Digits alone denote a whole number. */
  lemma UnsignedWholeParse(a: string)
    requires AllDigits(a) && |a| >= 1
    ensures UnsignedParseFixed2(a) == Some(DigitsValue(a) * 100)
  {
    DigitsNoPoint(a);
  }

  /** The unsigned text of `n` hundredths parses back to `n`. */
  lemma UnsignedFixed2Parses(n: nat)
    ensures UnsignedParseFixed2(Whole(n) + "." + Cents(n)) == Some(n)
  {
    var q := Whole(n);
    CentsValue(q, n);
    UnsignedPointParse(q, Cents(n));
    assert Whole(n) + "." + Cents(n) == q + ['.'] + Cents(n);
    DivMod100(n);
  }

  /** Without its point, the same digits read as `100 * n` hundredths. */
  lemma UnsignedFixed2NoPointParses(n: nat)
    ensures UnsignedParseFixed2(Whole(n) + Cents(n)) == Some(100 * n)
  {
    var q := Whole(n);
    CentsValue(q, n);
    UnsignedWholeParse(q + Cents(n));
    DivMod100(n);
  }

  /** A leading minus negates what the unsigned reading gives; no sign leaves it as is. */
  lemma ParseFixed2Sign(sign: string, u: string, m: nat)
    requires sign == "" || sign == "-"
    requires |u| >= 1 && IsDigit(u[0]) && UnsignedParseFixed2(u) == Some(m)
    ensures ParseFixed2(sign + u) == Some(if sign == "-" then -(m as int) else m as int)
  {
    if sign == "-" {
      assert (sign + u)[1..] == u;
    } else {
      assert sign + u == u;
    }
  }

  lemma SignedFixed2Parses(sign: string, n: nat)
    requires sign == "" || sign == "-"
    ensures ParseFixed2(sign + (Whole(n) + "." + Cents(n))) == Some(if sign == "-" then -(n as int) else n as int)
    ensures ParseFixed2(RemoveFirst(sign + (Whole(n) + "." + Cents(n)), '.')) == Some(if sign == "-" then -(100 * n) else 100 * n)
    ensures NoEdgeSpace(sign + (Whole(n) + "." + Cents(n))) && '\n' !in sign + (Whole(n) + "." + Cents(n))
  {
    CentsDigits(n);
    Fixed2NoNewline(sign, Whole(n), Cents(n));
    SignedPointParse(sign, n);
    SignedNoPointParse(sign, n);
  }

  lemma SignedPointParse(sign: string, n: nat)
    requires sign == "" || sign == "-"
    ensures ParseFixed2(sign + (Whole(n) + "." + Cents(n))) == Some(if sign == "-" then -(n as int) else n as int)
  {
    var q, c := Whole(n), Cents(n);
    var u := q + "." + c;
    UnsignedFixed2Parses(n);
    assert u[0] == q[0];
    ParseFixed2Sign(sign, u, n);
  }

  lemma SignedNoPointParse(sign: string, n: nat)
    requires sign == "" || sign == "-"
    ensures ParseFixed2(RemoveFirst(sign + (Whole(n) + "." + Cents(n)), '.')) == Some(if sign == "-" then -(100 * n) else 100 * n)
  {
    var q, c := Whole(n), Cents(n);
    var w := q + c;
    var r := RemoveFirst(sign + (q + "." + c), '.');
    assert r == sign + w by {
      DigitsNoPoint(q);
      SignedRemovePoint(sign, q, c);
    }
    var m: nat := 100 * n;
    assert ParseFixed2(sign + w) == Some(if sign == "-" then -(m as int) else m as int) by {
      assert UnsignedParseFixed2(w) == Some(m) by {
        UnsignedFixed2NoPointParses(n);
      }
      assert IsDigit(w[0]) by {
        assert w[0] == q[0];
      }
      ParseFixed2Sign(sign, w, m);
    }
    SameParse(r, sign + w);
    assert (if sign == "-" then -(m as int) else m as int) == (if sign == "-" then -(100 * n) else 100 * n);
  }

  lemma SameParse(r: string, t: string)
    requires r == t
    ensures ParseFixed2(r) == ParseFixed2(t)
  {
  }

  lemma SignedRemovePoint(sign: string, q: string, c: string)
    requires '.' !in sign + q
    ensures RemoveFirst(sign + (q + "." + c), '.') == sign + (q + c)
  {
    var r := sign + (q + "." + c);
    assert r == (sign + q) + ['.'] + c;
    IndexAfter(sign + q, '.', c);
  }

  /** Deleting the first point of `a + "." + b`, when `a` holds none, joins `a` and `b`. */
  lemma RemovePoint(a: string, b: string)
    requires '.' !in a
    ensures RemoveFirst(a + ['.'] + b, '.') == a + b
  {
    IndexAfter(a, '.', b);
  }

  lemma Fixed2NoNewline(sign: string, q: string, c: string)
    requires sign == "" || sign == "-"
    requires AllDigits(q) && AllDigits(c) && |q| >= 1 && |c| >= 1
    ensures NoEdgeSpace(sign + (q + "." + c)) && '\n' !in sign + (q + "." + c)
  {
    DigitsNoPoint(q);
    DigitsNoPoint(c);
    assert sign + (q + "." + c) == (sign + q) + "." + c;
  }

  /** Zero-filling a non-negative fixed-point text on the left keeps its parsed value. */
  lemma ParseFixed2LeadingZeros(z: string, h: nat)
    requires AllZeros(z)
    ensures ParseFixed2(z + FormatFixed2(h)) == Some(h)
  {
    var q, c := Whole(h), Cents(h);
    var s := (z + q) + ['.'] + c;
    FixedShape(z, h);
    LeadingZeros(z, q);
    CentsValue(z + q, h);
    UnsignedPointParse(z + q, c);
    DivMod100(h);
    assert s[0] == (z + q)[0];
    ParseFixed2Sign("", s, h);
    assert "" + s == s;
  }

  /** Zero-filling a fixed-point text on the right only adds fraction zeros and keeps its parsed value. */
  lemma ParseFixed2TrailingZeros(h: int, z: string)
    requires AllZeros(z)
    ensures ParseFixed2(FormatFixed2(h) + z) == Some(h)
  {
    var n := Abs(h);
    var sign := if h < 0 then "-" else "";
    var q, c := Whole(n), Cents(n);
    var u := q + ['.'] + (c + z);
    assert FormatFixed2(h) + z == sign + u;
    assert UnsignedParseFixed2(u) == Some(n) by {
      CentsValue(q, n);
      UnsignedPointZerosParse(q, c, z);
      DivMod100(n);
    }
    assert u[0] == q[0];
    ParseFixed2Sign(sign, u, n);
  }

  /** A text of digits has no whitespace at its edges. */
  lemma DigitsNoEdgeSpace(s: string)
    requires AllDigits(s)
    ensures NoEdgeSpace(s)
  {
    if s != [] {
      assert IsDigit(s[0]) && IsDigit(s[|s| - 1]);
    }
  }

  lemma FixedShape(z: string, h: nat)
    ensures z + FormatFixed2(h) == (z + Whole(h)) + ['.'] + Cents(h)
  {
  }

  lemma DivMod100(n: nat)
    ensures n / 100 * 100 + n % 100 == n
  {
  }

  /** The value of a fraction's first two digits, in hundredths. */
  function FractionValue(f: string): nat
    requires AllDigits(f)
  {
    if |f| == 0 then 0
    else if |f| == 1 then 10 * DigitValue(f[0])
    else 10 * DigitValue(f[0]) + DigitValue(f[1])
  }

  /**
   * Digits, optionally split by one point, with at least one digit; after
   * the point, any digits beyond the second must be zeros.
   */
  function UnsignedParseFixed2(s: string): Option<nat>
  {
    var i := IndexOf(s, '.');
    if i < 0 then
      if |s| >= 1 && AllDigits(s) then Some(DigitsValue(s) * 100) else None
    else
      var whole, frac := s[..i], s[i + 1..];
      if AllDigits(whole) && AllDigits(frac) && |whole| + |frac| >= 1 && (|frac| <= 2 || AllZeros(frac[2..]))
      then Some(DigitsValue(whole) * 100 + FractionValue(frac))
      else None
  }

  /**
   * `strconv.ParseFloat(s, 64)` restricted to plain decimal notation whose
   * value is a whole number of hundredths: an optional sign, digits, an
   * optional point and fraction digits of which only two may be non-zero.
   */
  function ParseFixed2(s: string): Option<int>
  {
    if |s| == 0 then None
    else if s[0] == '+' || s[0] == '-' then
      match UnsignedParseFixed2(s[1..])
      case None => None
      case Some(n) => Some(if s[0] == '-' then -(n as int) else n as int)
    else
      match UnsignedParseFixed2(s)
      case None => None
      case Some(n) => Some(n)
  }
}
