/** Numbers as the two runtimes read and write them: JavaScript's `parseInt` and number-to-text
    conversion, Python's `float()` on decimal text, and JavaScript's `toFixed`. JavaScript numbers
    are modelled as unbounded integers plus NaN; Python floats parsed from text as exact reals. */
module Numbers {
  import opened Wrappers
  import Text

  /** A JavaScript number as the model needs it: an integer value or NaN. */
  datatype JsNumber = Num(n: int) | NaN

  function Pow(base: nat, e: nat): (r: nat)
    ensures base >= 1 ==> r >= 1
  {
    if e == 0 then 1 else base * Pow(base, e - 1)
  }

  /** The value of a character read as a digit in bases up to 36; 36 for a non-digit. */
  function DigitValue(c: char): (v: nat)
    ensures v <= 36
  {
    if '0' <= c <= '9' then c as int - '0' as int
    else if 'a' <= c <= 'z' then c as int - 'a' as int + 10
    else if 'A' <= c <= 'Z' then c as int - 'A' as int + 10
    else 36
  }

  predicate IsDigitIn(c: char, radix: nat) {
    DigitValue(c) < radix
  }

  predicate AllDigits(s: string, radix: nat) {
    forall i :: 0 <= i < |s| ==> IsDigitIn(s[i], radix)
  }

  /** The value of a string of digits in `radix`, most significant digit first. */
  function DigitsValue(s: string, radix: nat): nat
    requires AllDigits(s, radix)
    decreases |s|
  {
    if |s| == 0 then 0 else DigitsValue(s[..|s| - 1], radix) * radix + DigitValue(s[|s| - 1])
  }

  /** The length of the longest prefix of `s` made of digits in `radix`. */
  function DigitPrefixLength(s: string, radix: nat): (k: nat)
    ensures k <= |s| && AllDigits(s[..k], radix)
    ensures k < |s| ==> !IsDigitIn(s[k], radix)
    decreases |s|
  {
    if |s| == 0 || !IsDigitIn(s[0], radix) then 0
    else
      var k := 1 + DigitPrefixLength(s[1..], radix);
      assert forall i :: 1 <= i < k ==> s[..k][i] == s[1..][..k - 1][i - 1];
      k
  }

  /** The characters JavaScript strips before reading a number: white space and line terminators. */
  predicate IsJsSpace(c: char) {
    c == '\U{9}' || c == '\U{B}' || c == '\U{C}' || c == '\U{FEFF}' || c == ' ' || c == '\U{A0}'
    || c == '\U{1680}' || ('\U{2000}' <= c <= '\U{200A}') || c == '\U{202F}' || c == '\U{205F}'
    || c == '\U{3000}' || c == '\n' || c == '\r' || c == '\U{2028}' || c == '\U{2029}'
  }

  function TrimStart(s: string): (r: string)
    ensures |r| <= |s| && r == s[|s| - |r|..]
    ensures |r| > 0 ==> !IsJsSpace(r[0])
    decreases |s|
  {
    if |s| > 0 && IsJsSpace(s[0]) then TrimStart(s[1..]) else s
  }

  /** `parseInt(s)` without a radix: leading white space skipped, one optional sign, a `0x`/`0X`
      prefix switching to base 16, then the longest run of digits; NaN when that run is empty. */
  function ParseInt(s: string): JsNumber {
    ParseSigned(TrimStart(s))
  }

  /** `parseInt` after the white space: one optional sign, then the magnitude. */
  function ParseSigned(t: string): JsNumber {
    match ParseMagnitude(Unsigned(t))
    case Some(v) => Num(if IsNegative(t) then -(v as int) else v)
    case None => NaN
  }

  predicate IsNegative(t: string) {
    |t| > 0 && t[0] == '-'
  }

  /** The text after one leading sign, if there is one. */
  function Unsigned(t: string): string {
    if |t| > 0 && (t[0] == '-' || t[0] == '+') then t[1..] else t
  }

  /** The unsigned part of `parseInt`: the value of the leading digits, `None` when there are none. */
  function ParseMagnitude(u: string): Option<nat> {
    var hex := |u| >= 2 && u[0] == '0' && (u[1] == 'x' || u[1] == 'X');
    var radix := if hex then 16 else 10;
    var body := if hex then u[2..] else u;
    var k := DigitPrefixLength(body, radix);
    if k == 0 then None else Some(DigitsValue(body[..k], radix))
  }

  function DigitChar(d: nat): (c: char)
    requires d < 10
    ensures DigitValue(c) == d
  {
    ('0' as int + d) as char
  }

  /** Decimal text of a natural number, without leading zeros. */
  function NatToString(n: nat): (s: string)
    ensures |s| >= 1 && AllDigits(s, 10)
    ensures s[0] == '0' ==> n == 0 && |s| == 1
    ensures DigitsValue(s, 10) == n
  {
    if n < 10 then [DigitChar(n)]
    else
      var s := NatToString(n / 10) + [DigitChar(n % 10)];
      assert s[..|s| - 1] == NatToString(n / 10);
      s
  }

  /** Decimal text of an integer, `-` before a negative one. */
  function IntToString(n: int): string {
    if n < 0 then "-" + NatToString(-n) else NatToString(n)
  }

  /** `String(x)` for the numbers the model has. */
  function NumberToString(x: JsNumber): string {
    match x
    case Num(n) => IntToString(n)
    case NaN => "NaN"
  }

  /** Reading back the text of a number gives the number: `parseInt(String(x)) == x`. */
  lemma NumberRoundTrip(x: JsNumber)
    ensures ParseInt(NumberToString(x)) == x
  {
    match x
    case NaN => NaNRoundTrip();
    case Num(n) => IntRoundTrip(n);
  }

  lemma NaNRoundTrip()
    ensures ParseInt("NaN") == NaN
  {
    assert "NaN"[0] == 'N' && !IsJsSpace('N') && !IsDigitIn('N', 10);
    assert TrimStart("NaN") == "NaN";
    assert Unsigned("NaN") == "NaN";
    assert DigitPrefixLength("NaN", 10) == 0;
  }

  lemma IntRoundTrip(n: int)
    ensures ParseInt(IntToString(n)) == Num(n)
  {
    var a: nat := if n < 0 then -n else n;
    var m := NatToString(a);
    ParseIntOfDigits(if n < 0 then "-" else "", m);
    assert IntToString(n) == (if n < 0 then "-" else "") + m;
  }

  /** `parseInt` of an optional minus sign followed by the text of a natural number. */
  lemma ParseIntOfDigits(sign: string, m: string)
    requires sign == "" || sign == "-"
    requires |m| >= 1 && AllDigits(m, 10) && (m[0] == '0' ==> |m| == 1)
    ensures ParseInt(sign + m) == Num(if sign == "-" then -(DigitsValue(m, 10) as int) else DigitsValue(m, 10))
  {
    NoSpaceBeforeDigits(sign, m);
    ParseSignedOfDigits(sign, m);
  }

  lemma ParseSignedOfDigits(sign: string, m: string)
    requires sign == "" || sign == "-"
    requires |m| >= 1 && AllDigits(m, 10) && (m[0] == '0' ==> |m| == 1)
    ensures ParseSigned(sign + m) == Num(if sign == "-" then -(DigitsValue(m, 10) as int) else DigitsValue(m, 10))
  {
    SignStripped(sign, m);
    MagnitudeOfDigits(m);
    assert ParseMagnitude(Unsigned(sign + m)) == Some(DigitsValue(m, 10));
  }

  /** The sign `parseInt` looks for in front of the digits is exactly `sign`. */
  lemma SignStripped(sign: string, m: string)
    requires sign == "" || sign == "-"
    requires |m| >= 1 && AllDigits(m, 10)
    ensures IsNegative(sign + m) == (sign == "-") && Unsigned(sign + m) == m
  {
    var s := sign + m;
    assert DigitValue(m[0]) < 10;
    if sign == "-" {
      assert s[0] == '-' && s[1..] == m;
    } else {
      assert s == m && s[0] != '-' && s[0] != '+';
    }
  }

  lemma NoSpaceBeforeDigits(sign: string, m: string)
    requires sign == "" || sign == "-"
    requires |m| >= 1 && AllDigits(m, 10)
    ensures TrimStart(sign + m) == sign + m
    ensures (sign + m)[0] == '-' <==> sign == "-"
  {
    var s := sign + m;
    assert DigitValue(m[0]) < 10;
    assert s[0] == (if sign == "-" then '-' else m[0]);
  }

  lemma MagnitudeOfDigits(m: string)
    requires |m| >= 1 && AllDigits(m, 10) && (m[0] == '0' ==> |m| == 1)
    ensures ParseMagnitude(m) == Some(DigitsValue(m, 10))
  {
    assert !(|m| >= 2 && m[0] == '0');
    DigitsPrefixAll(m, 10);
    assert m[..|m|] == m;
  }

  lemma {:induction false} DigitsPrefixAll(s: string, radix: nat)
    requires AllDigits(s, radix)
    ensures DigitPrefixLength(s, radix) == |s|
    decreases |s|
  {
    if |s| > 0 {
      DigitsPrefixAll(s[1..], radix);
    }
  }

  /** Digits of a concatenation: the left part is shifted by the length of the right. */
  lemma {:induction false} DigitsValueAppend(a: string, b: string, radix: nat)
    requires AllDigits(a, radix) && AllDigits(b, radix)
    ensures AllDigits(a + b, radix)
    ensures DigitsValue(a + b, radix) == DigitsValue(a, radix) * Pow(radix, |b|) + DigitsValue(b, radix)
    decreases |b|
  {
    var ab := a + b;
    assert AllDigits(ab, radix) by {
      forall i | 0 <= i < |ab| ensures IsDigitIn(ab[i], radix) {
        if i >= |a| { assert ab[i] == b[i - |a|]; }
      }
    }
    if |b| == 0 {
      assert ab == a;
    } else {
      var b' := b[..|b| - 1];
      assert ab[..|ab| - 1] == a + b';
      assert AllDigits(b', radix);
      DigitsValueAppend(a, b', radix);
      var A, B', P', c := DigitsValue(a, radix), DigitsValue(b', radix), Pow(radix, |b'|), DigitValue(b[|b| - 1]);
      assert DigitsValue(ab, radix) == DigitsValue(a + b', radix) * radix + c;
      assert DigitsValue(a + b', radix) == A * P' + B';
      assert DigitsValue(b, radix) == B' * radix + c;
      assert Pow(radix, |b|) == radix * P';
      MulShift(A, P', B', radix, c);
    }
  }

  lemma MulShift(A: int, P: int, B: int, r: int, c: int)
    ensures (A * P + B) * r + c == A * (r * P) + (B * r + c)
  {
  }

  /** `n` copies of the character `0`. */
  function ZeroChars(n: nat): (s: string)
    ensures |s| == n && AllDigits(s, 10)
    ensures forall i :: 0 <= i < n ==> s[i] == '0'
  {
    seq(n, _ => '0')
  }

  /** Leading zeros do not change the value of a digit string. */
  lemma {:induction false} LeadingZeros(n: nat, s: string)
    requires AllDigits(s, 10)
    ensures DigitsValue(ZeroChars(n) + s, 10) == DigitsValue(s, 10)
  {
    DigitsValueAppend(ZeroChars(n), s, 10);
    ZerosValue(n);
  }

  lemma {:induction false} ZerosValue(n: nat)
    ensures DigitsValue(ZeroChars(n), 10) == 0
  {
    if n > 0 {
      assert ZeroChars(n)[..n - 1] == ZeroChars(n - 1);
      ZerosValue(n - 1);
    }
  }

  // ---------------------------------------------------------------------------------------------
  // Python float() on decimal text

  /** `[+|-] digits [. digits]` or `[+|-] . digits`, read as an exact real. */
  function ParseDecimal(s: string): (r: Option<real>)
  {
    if |s| > 0 && (s[0] == '+' || s[0] == '-') then
      match ParseUnsignedDecimal(s[1..])
      case Some(v) => Some(if s[0] == '-' then -v else v)
      case None => None
    else ParseUnsignedDecimal(s)
  }

  function ParseUnsignedDecimal(t: string): (r: Option<real>)
    ensures r.Some? ==> r.value >= 0.0
  {
    var parts := Text.Split(t, '.');
    if |parts| == 1 then
      if |t| > 0 && AllDigits(t, 10) then Some(DigitsValue(t, 10) as real) else None
    else if |parts| == 2 then
      var a, b := parts[0], parts[1];
      if |a| + |b| > 0 && AllDigits(a, 10) && AllDigits(b, 10) then Some(PointValue(a, b)) else None
    else None
  }

  /** The value of `a.b` for digit strings `a` and `b`. */
  function PointValue(a: string, b: string): (v: real)
    requires AllDigits(a, 10) && AllDigits(b, 10)
    ensures v >= 0.0
  {
    (DigitsValue(a, 10) * Pow(10, |b|) + DigitsValue(b, 10)) as real / Pow(10, |b|) as real
  }

  /** The characters a decimal literal is made of. */
  predicate DecimalChar(c: char) {
    c == '+' || c == '-' || c == '.' || ('0' <= c <= '9')
  }

  /** Text that parses as a decimal holds only signs, a point and digits; in particular no
      field separator of the QR payload. */
  lemma DecimalCharsOnly(s: string)
    requires ParseDecimal(s).Some?
    ensures forall i :: 0 <= i < |s| ==> DecimalChar(s[i])
  {
    var t := if |s| > 0 && (s[0] == '+' || s[0] == '-') then s[1..] else s;
    UnsignedDecimalChars(t);
    forall i | 0 <= i < |s| ensures DecimalChar(s[i]) {
      if t != s && i > 0 {
        assert s[i] == t[i - 1];
      }
    }
  }

  lemma UnsignedDecimalChars(t: string)
    requires ParseUnsignedDecimal(t).Some?
    ensures forall i :: 0 <= i < |t| ==> DecimalChar(t[i])
  {
    var parts := Text.Split(t, '.');
    if |parts| == 2 {
      Text.JoinSplit(t, '.');
      assert t == parts[0] + ['.'] + parts[1];
      forall i | 0 <= i < |t| ensures DecimalChar(t[i]) {
        if i < |parts[0]| {
          assert t[i] == parts[0][i];
        } else if i > |parts[0]| {
          assert t[i] == parts[1][i - |parts[0]| - 1];
        }
      }
    }
  }

  // ---------------------------------------------------------------------------------------------
  // Number.prototype.toFixed

  /** `x.toFixed(d)` for `x` below 10^21: the integer `n` nearest to `|x|·10^d` (the larger one on
      a tie), written with `d` digits after the point, and `-` in front when `x` is negative. */
  function FormatFixed(x: real, d: nat): string {
    if x < 0.0 then "-" + FixedDigits(-x, d) else FixedDigits(x, d)
  }

  /** The integer nearest to `y·10^d`, the larger one on a tie. */
  function Scaled(y: real, d: nat): nat
    requires y >= 0.0
  {
    NearestInt(y * Pow(10, d) as real)
  }

  /** `Scaled(y, d)` is the count of units of the `d`-th decimal place nearest to `y`. */
  lemma ScaledNearest(y: real, d: nat)
    requires y >= 0.0
    ensures var w := y * Pow(10, d) as real;
            Scaled(y, d) as real - 0.5 <= w < Scaled(y, d) as real + 0.5
  {
    NearestIntBounds(y * Pow(10, d) as real);
  }

  /** The integer nearest to `w`, the larger one on a tie. */
  function NearestInt(w: real): nat
    requires w >= 0.0
  {
    (w + 0.5).Floor
  }

  /** `NearestInt(w)` is within half a unit of `w`. */
  lemma NearestIntBounds(w: real)
    requires w >= 0.0
    ensures NearestInt(w) as real - 0.5 <= w < NearestInt(w) as real + 0.5
  {
  }

  function FixedDigits(y: real, d: nat): string
    requires y >= 0.0
  {
    PointText(Scaled(y, d), d)
  }

  /** `n / 10^d` written with exactly `d` digits after the point (none, and no point, when `d` is 0). */
  function PointText(n: nat, d: nat): string {
    if d == 0 then NatToString(n) else InsertPoint(PaddedDigits(n, d + 1), d)
  }

  /** `z` with a point in front of its last `d` characters. */
  function InsertPoint(z: string, d: nat): string
    requires |z| >= d
    decreases |z|
  {
    if |z| == d then "." + z else [z[0]] + InsertPoint(z[1..], d)
  }

  /** The point splits `z` into the characters before the last `d` and those `d`. */
  lemma {:induction false} InsertPointSplits(z: string, d: nat)
    requires |z| >= d
    ensures InsertPoint(z, d) == z[..|z| - d] + "." + z[|z| - d..]
    decreases |z|
  {
    if |z| > d {
      InsertPointSplits(z[1..], d);
      assert z[1..][..|z| - 1 - d] == z[1..|z| - d];
      assert z[1..][|z| - 1 - d..] == z[|z| - d..];
      assert [z[0]] + z[1..|z| - d] == z[..|z| - d];
    }
  }

  /** The decimal digits of `n`, with zeros in front up to at least `w` digits. */
  function PaddedDigits(n: nat, w: nat): (z: string)
    ensures AllDigits(z, 10) && |z| >= w && |z| > 0 && DigitsValue(z, 10) == n
  {
    var m := NatToString(n);
    if |m| < w then
      LeadingZeros(w - |m|, m);
      ZeroChars(w - |m|) + m
    else m
  }

  /** The text `toFixed` writes reads back as the rounded value `±Scaled(|x|, d) / 10^d`, whose
      distance from `x` is at most half a unit in the last place (see `Scaled`). */
  lemma FixedParses(x: real, d: nat)
    ensures ParseDecimal(FormatFixed(x, d)) == Some(FixedValue(x, d))
  {
    if x < 0.0 {
      NegativeFixedParses(x, d);
    } else {
      NonNegativeFixedParses(x, d);
    }
  }

  lemma NegativeFixedParses(x: real, d: nat)
    requires x < 0.0
    ensures ParseDecimal(FormatFixed(x, d)) == Some(-FixedMagnitude(-x, d))
  {
    FixedDigitsValue(-x, d);
    SignedText(FixedDigits(-x, d), FixedMagnitude(-x, d));
  }

  lemma NonNegativeFixedParses(x: real, d: nat)
    requires x >= 0.0
    ensures ParseDecimal(FormatFixed(x, d)) == Some(FixedMagnitude(x, d))
  {
    FixedDigitsValue(x, d);
    NoSignInFixed(Scaled(x, d), d);
  }

  /** The value `x.toFixed(d)` denotes: `x` rounded to `d` places, ties away from zero. */
  function FixedValue(x: real, d: nat): real {
    if x < 0.0 then -FixedMagnitude(-x, d) else FixedMagnitude(x, d)
  }

  /** `y ≥ 0` rounded to `d` places, ties upwards. */
  function FixedMagnitude(y: real, d: nat): real
    requires y >= 0.0
  {
    Scaled(y, d) as real / Pow(10, d) as real
  }

  /** The rounded value is within half a unit of the `d`-th decimal place of `x`. */
  lemma FixedClose(x: real, d: nat)
    ensures var p := Pow(10, d) as real; -0.5 <= (FixedValue(x, d) - x) * p <= 0.5
  {
    var p := Pow(10, d) as real;
    var y := if x < 0.0 then -x else x;
    ScaledNearest(y, d);
    var n := Scaled(y, d) as real;
    var m := FixedMagnitude(y, d);
    HalfUnit(m, y, p, n);
    assert FixedValue(x, d) - x == if x < 0.0 then y - m else m - y;
  }

  lemma HalfUnit(m: real, y: real, p: real, n: real)
    requires p >= 1.0 && m == n / p && n - 0.5 <= y * p < n + 0.5
    ensures -0.5 <= (m - y) * p <= 0.5 && -0.5 <= (y - m) * p <= 0.5
  {
    assert m * p == n;
  }

  /** A minus sign in front of unsigned decimal text negates its value. */
  lemma SignedText(t: string, v: real)
    requires ParseUnsignedDecimal(t) == Some(v)
    ensures ParseDecimal("-" + t) == Some(-v)
  {
    var s := "-" + t;
    assert s[0] == '-' && s[1..] == t;
  }

  lemma FixedDigitsValue(y: real, d: nat)
    requires y >= 0.0
    ensures ParseUnsignedDecimal(FixedDigits(y, d)) == Some(FixedMagnitude(y, d))
  {
    PointTextValue(Scaled(y, d), d);
  }

  lemma NoSignInFixed(n: nat, d: nat)
    ensures |PointText(n, d)| > 0 && PointText(n, d)[0] != '+' && PointText(n, d)[0] != '-'
  {
    if d == 0 {
      var m := NatToString(n);
      assert DigitValue(m[0]) < 10;
    } else {
      var z := PaddedDigits(n, d + 1);
      assert PointText(n, d)[0] == z[0] by { InsertPointSplits(z, d); }
      assert DigitValue(z[0]) < 10;
    }
  }

  /** The text reads back as `n / 10^d`. */
  lemma PointTextValue(n: nat, d: nat)
    ensures ParseUnsignedDecimal(PointText(n, d)) == Some(n as real / Pow(10, d) as real)
  {
    if d == 0 {
      IntegerTextValue(n, d);
    } else {
      FractionTextValue(n, d);
    }
  }

  lemma IntegerTextValue(n: nat, d: nat)
    requires d == 0
    ensures ParseUnsignedDecimal(PointText(n, d)) == Some(n as real / Pow(10, d) as real)
  {
    var m := NatToString(n);
    assert PointText(n, d) == m;
    ParseOnePart(m);
    var p := Pow(10, d) as real;
    assert p == 1.0;
    assert n as real / p == n as real;
  }

  lemma FractionTextValue(n: nat, d: nat)
    requires d > 0
    ensures ParseUnsignedDecimal(PointText(n, d)) == Some(n as real / Pow(10, d) as real)
  {
    var z := PaddedDigits(n, d + 1);
    var a, b := z[..|z| - d], z[|z| - d..];
    InsertPointSplits(z, d);
    PaddedSplit(z, a, b, n, d);
    SplitPointValue(a, b, n, d);
  }

  lemma PaddedSplit(z: string, a: string, b: string, n: nat, d: nat)
    requires AllDigits(z, 10) && DigitsValue(z, 10) == n && |z| > d
    requires a == z[..|z| - d] && b == z[|z| - d..]
    ensures AllDigits(a, 10) && AllDigits(b, 10) && |b| == d && |a| > 0
    ensures DigitsValue(a, 10) * Pow(10, d) + DigitsValue(b, 10) == n
  {
    assert a + b == z;
    DigitsValueAppend(a, b, 10);
  }

  lemma SplitPointValue(a: string, b: string, n: nat, d: nat)
    requires AllDigits(a, 10) && AllDigits(b, 10) && |b| == d && |a| > 0
    requires DigitsValue(a, 10) * Pow(10, d) + DigitsValue(b, 10) == n
    ensures ParseUnsignedDecimal(a + "." + b) == Some(n as real / Pow(10, d) as real)
  {
    ParseTwoParts(a, b);
    PointValueIs(a, b, n, d);
  }

  lemma PointValueIs(a: string, b: string, n: nat, d: nat)
    requires AllDigits(a, 10) && AllDigits(b, 10) && |b| == d
    requires DigitsValue(a, 10) * Pow(10, d) + DigitsValue(b, 10) == n
    ensures PointValue(a, b) == n as real / Pow(10, d) as real
  {
  }

  /** Digit strings hold no decimal point. */
  lemma DigitsHaveNoPoint(s: string)
    requires AllDigits(s, 10)
    ensures '.' !in s
  {
    forall i | 0 <= i < |s| ensures s[i] != '.' {
      assert DigitValue(s[i]) < 10;
    }
  }

  lemma ParseOnePart(m: string)
    requires |m| > 0 && AllDigits(m, 10)
    ensures ParseUnsignedDecimal(m) == Some(DigitsValue(m, 10) as real)
  {
    DigitsHaveNoPoint(m);
    Text.SplitWithoutSeparator(m, '.');
  }

  lemma ParseTwoParts(a: string, b: string)
    requires |a| + |b| > 0 && AllDigits(a, 10) && AllDigits(b, 10)
    ensures ParseUnsignedDecimal(a + "." + b) == Some(PointValue(a, b))
  {
    var t := a + "." + b;
    DigitsHaveNoPoint(a);
    DigitsHaveNoPoint(b);
    Text.SplitJoin([a, b], '.');
    assert Text.Join([a, b], '.') == t by {
      assert Text.Join([a, b][1..], '.') == b;
    }
    assert Text.Split(t, '.') == [a, b];
  }
}
