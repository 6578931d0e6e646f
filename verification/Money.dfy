/** Decimal text: what `D` reads, what `format_decimal` prints, and when the two undo each other. */
module Money {
  import opened Wrappers

  /** A finite decimal: `coef` times ten to the `exp`. Several decimals may have one value. */
  datatype Dec = Dec(coef: int, exp: int)

  datatype Error = EmptyText | InvalidText | InvalidOperation

  // ---------------------------------------------------------------- values

  function Ten(e: int): (r: real)
    ensures r > 0.0
    decreases if e < 0 then -e else e
  {
    if e > 0 then 10.0 * Ten(e - 1) else if e < 0 then Ten(e + 1) / 10.0 else 1.0
  }

  function Value(d: Dec): real {
    d.coef as real * Ten(d.exp)
  }

  lemma {:induction false} TenDown(e: int)
    ensures Ten(e) == 10.0 * Ten(e - 1)
  {
  }

  // ---------------------------------------------------------------- digits

  predicate IsDigit(c: char) {
    '0' <= c <= '9'
  }

  predicate AllDigits(s: string) {
    forall i :: 0 <= i < |s| ==> IsDigit(s[i])
  }

  function DigitChar(n: nat): (c: char)
    requires n < 10
    ensures IsDigit(c) && DigitValue(c) == n
  {
    '0' + n as char
  }

  function DigitValue(c: char): (n: nat)
    requires IsDigit(c)
    ensures n < 10
  {
    c as int - '0' as int
  }

  function Num(s: string): nat
    requires AllDigits(s)
  {
    if s == "" then 0 else 10 * Num(s[..|s| - 1]) + DigitValue(s[|s| - 1])
  }

  /** The digits of a number, without leading zeros. */
  function Digits(n: nat): (s: string)
    ensures s != "" && AllDigits(s)
  {
    if n < 10 then [DigitChar(n)] else Digits(n / 10) + [DigitChar(n % 10)]
  }

  /** The last `k` digits of a number, padded with zeros. */
  function LastDigits(n: nat, k: nat): (s: string)
    ensures |s| == k && AllDigits(s)
  {
    if k == 0 then "" else LastDigits(n / 10, k - 1) + [DigitChar(n % 10)]
  }

  lemma {:induction false} NumSnoc(s: string, n: nat)
    requires AllDigits(s) && n < 10
    ensures AllDigits(s + [DigitChar(n)]) && Num(s + [DigitChar(n)]) == 10 * Num(s) + n
  {
    assert (s + [DigitChar(n)])[..|s|] == s;
  }

  lemma {:induction false} DigitsRead(n: nat)
    ensures Num(Digits(n)) == n
  {
    if n < 10 {
      assert Digits(n) == "" + [DigitChar(n)];
      NumSnoc("", n);
    } else {
      DigitsRead(n / 10);
      NumSnoc(Digits(n / 10), n % 10);
    }
  }

  /** What is left of a number when its last `k` digits are dropped. */
  function Whole(n: nat, k: nat): nat {
    if k == 0 then n else Whole(n / 10, k - 1)
  }

  /** The digits before the point followed by those after it are the digits of the whole number. */
  lemma {:induction false} SplitDigitsRead(n: nat, k: nat)
    ensures AllDigits(Digits(Whole(n, k)) + LastDigits(n, k))
    ensures Num(Digits(Whole(n, k)) + LastDigits(n, k)) == n
  {
    if k == 0 {
      DigitsRead(n);
      assert Digits(n) + "" == Digits(n);
    } else {
      var m := n / 10;
      SplitDigitsRead(m, k - 1);
      var s := Digits(Whole(m, k - 1)) + LastDigits(m, k - 1);
      assert Digits(Whole(n, k)) + LastDigits(n, k) == s + [DigitChar(n % 10)];
      NumSnoc(s, n % 10);
    }
  }

  // ---------------------------------------------------------------- reading: D

  predicate IsSpace(c: char) {
    c in " \t\n\r\U{0B}\U{0C}\U{1C}\U{1D}\U{1E}\U{1F}"
  }

  function StripLeft(s: string): string {
    if s != "" && IsSpace(s[0]) then StripLeft(s[1..]) else s
  }

  /** Drops a character from the end as often as it stands there. */
  function StripRight(s: string, drop: char -> bool): string {
    if s != "" && drop(s[|s| - 1]) then StripRight(s[..|s| - 1], drop) else s
  }

  function Strip(s: string): string {
    StripRight(StripLeft(s), IsSpace)
  }

  /** Underscores are ignored, and the exponent mark may be of either case. */
  function Clean(s: string): string {
    if s == "" then ""
    else (if s[0] == '_' then "" else if s[0] == 'E' then "e" else [s[0]]) + Clean(s[1..])
  }

  /** The text before the first `c`, and the text after it if there is one. */
  function Cut(s: string, c: char): (string, Option<string>) {
    if s == "" then ("", None)
    else if s[0] == c then ("", Some(s[1..]))
    else var rest := Cut(s[1..], c); ([s[0]] + rest.0, rest.1)
  }

  function Signed(s: string): (int, string) {
    if s != "" && s[0] == '-' then (-1, s[1..]) else if s != "" && s[0] == '+' then (1, s[1..]) else (1, s)
  }

  function ReadExponent(s: string): Result<int, Error> {
    var (sign, digits) := Signed(s);
    if digits != "" && AllDigits(digits) then Ok(sign * Num(digits)) else Err(InvalidText)
  }

  function ReadUnsigned(s: string): Result<Dec, Error> {
    var (whole, fraction) := Cut(s, '.');
    var digits := whole + fraction.GetOr("");
    if digits != "" && AllDigits(digits) then Ok(Dec(Num(digits), -|fraction.GetOr("")|)) else Err(InvalidText)
  }

  /** Digits with at most one point, and then perhaps an exponent. */
  function ReadNumber(sign: int, unsigned: string): Result<Dec, Error> {
    var (mantissa, exponent) := Cut(unsigned, 'e');
    var m := ReadUnsigned(mantissa);
    var e := if exponent.None? then Ok(0) else ReadExponent(exponent.value);
    if m.Err? || e.Err? then Err(InvalidText) else Ok(Dec(sign * m.value.coef, m.value.exp + e.value))
  }

  /** `D` on a string. Whatever is not a finite number raises. */
  function D(text: string): Result<Dec, Error> {
    var stripped := Strip(text);
    if stripped == "" then Err(EmptyText)
    else
      var (sign, unsigned) := Signed(Clean(stripped));
      ReadNumber(sign, unsigned)
  }

  // ---------------------------------------------------------------- printing: format_decimal

  /** The largest coefficient the default context of 28 digits can hold, plus one. */
  const COEFFICIENT_LIMIT := 10_000_000_000_000_000_000_000_000_000

  const TEN_TO_EIGHT := 100_000_000.0

  /** Rounding to an integer, ties to the even neighbour. */
  function RoundHalfEven(x: real): int {
    var low := x.Floor;
    var over := x - low as real;
    if over < 0.5 || (over == 0.5 && low % 2 == 0) then low else low + 1
  }

  /** `quantize` to eight decimal places; a coefficient of more than 28 digits is an invalid operation. */
  function Quantize8(d: Dec): Result<Dec, Error> {
    var coef := RoundHalfEven(Value(d) * TEN_TO_EIGHT);
    if -COEFFICIENT_LIMIT < coef < COEFFICIENT_LIMIT then Ok(Dec(coef, -8)) else Err(InvalidOperation)
  }

  /** The number `n` with its last `k` digits behind the point. */
  function Places(n: int, k: int): Dec {
    Dec(n, -k)
  }

  function WithSign(sign: int, n: int): int {
    if sign < 0 then -n else n
  }

  function Magnitude(n: int): nat {
    if n < 0 then -n else n
  }

  function SignText(n: int): string {
    if n < 0 then "-" else ""
  }

  /** The digits of `n` with a point before the last `k` of them. */
  function PointText(n: nat, k: nat): string {
    Digits(Whole(n, k)) + if k == 0 then "" else "." + LastDigits(n, k)
  }

  /** A number followed by `k` zeros. */
  function Shifted(n: int, k: nat): (r: int)
    ensures n >= 0 ==> r >= 0
    decreases k
  {
    if k == 0 then n else Shifted(10 * n, k - 1)
  }

  /** Fixed-point notation, no exponent, every digit kept. */
  function Fixed(d: Dec): string {
    SignText(d.coef)
    + if d.exp >= 0 then Digits(Shifted(Magnitude(d.coef), d.exp)) else PointText(Magnitude(d.coef), -d.exp)
  }

  predicate IsZero(c: char) {
    c == '0'
  }

  predicate IsPoint(c: char) {
    c == '.'
  }

  function Trim(text: string): string {
    if '.' in text then StripRight(StripRight(text, IsZero), IsPoint) else text
  }

  function FormatDecimal(d: Dec): Result<string, Error> {
    if d.coef == 0 then Ok("0")
    else
      var q := Quantize8(d);
      if q.Err? then Err(q.error)
      else Ok(Trim(Fixed(if Value(q.value) == Value(d) then q.value else d)))
  }

  // ---------------------------------------------------------------- when printing raises

  lemma {:induction false} RoundingIsNearest(x: real)
    ensures var r := RoundHalfEven(x) as real; -0.5 <= x - r <= 0.5
  {
  }

  /** Printing fails exactly on the numbers whose magnitude is at least 10^20 - 5*10^-9. */
  lemma {:induction false} FormatRaisesIff(d: Dec)
    ensures var limit := COEFFICIENT_LIMIT as real - 0.5;
            FormatDecimal(d).Err? <==> Value(d) * TEN_TO_EIGHT >= limit || Value(d) * TEN_TO_EIGHT <= -limit
  {
    if d.coef == 0 {
      assert Value(d) == 0.0;
    } else {
      var x := Value(d) * TEN_TO_EIGHT;
      RoundingIsNearest(x);
    }
  }

  /** So the printer does not serve every number of at most twenty integer digits: this one has twenty. */
  lemma {:induction false} TwentyDigitsCanRaise()
    ensures var d := Dec(99_999_999_999_999_999_999_999_999_999, -9);
            FormatDecimal(d) == Err(InvalidOperation) && Value(d) < 100_000_000_000_000_000_000.0
  {
    var d := Dec(99_999_999_999_999_999_999_999_999_999, -9);
    assert Ten(-9) == 0.000_000_001;
    assert Value(d) * TEN_TO_EIGHT == 9_999_999_999_999_999_999_999_999_999.9;
    FormatRaisesIff(d);
  }

  // ---------------------------------------------------------------- trimming

  /** A point text without its trailing fractional zeros. */
  function Reduced(n: nat, k: nat): (r: (nat, nat))
    ensures r.1 <= k && (r.1 > 0 ==> r.0 % 10 != 0)
  {
    if k > 0 && n % 10 == 0 then Reduced(n / 10, k - 1) else (n, k)
  }

  function Tidy(n: nat, k: nat): string {
    PointText(Reduced(n, k).0, Reduced(n, k).1)
  }

  lemma {:induction false} StripLast(s: string, c: char, drop: char -> bool)
    ensures StripRight(s + [c], drop) == if drop(c) then StripRight(s, drop) else s + [c]
  {
    assert (s + [c])[..|s|] == s;
  }

  /** A point text without its last digit. */
  function Shorter(prefix: string, n: nat, k: nat): string
    requires k > 0
  {
    prefix + Digits(Whole(n, k)) + "." + LastDigits(n / 10, k - 1)
  }

  lemma {:induction false} PointTextEnds(prefix: string, n: nat, k: nat)
    requires k > 0
    ensures prefix + PointText(n, k) == Shorter(prefix, n, k) + [DigitChar(n % 10)]
  {
  }

  lemma {:induction false} BarePointGoes(prefix: string, n: nat)
    ensures StripRight(StripRight(Shorter(prefix, n, 1), IsZero), IsPoint) == prefix + Digits(n / 10)
  {
    var digits := Digits(n / 10);
    var whole := prefix + digits;
    assert Whole(n, 1) == Whole(n / 10, 0) == n / 10;
    assert Shorter(prefix, n, 1) == whole + ['.'];
    StripLast(whole, '.', IsZero);
    StripLast(whole, '.', IsPoint);
    assert !IsPoint(whole[|whole| - 1]);
  }

  /** Dropping trailing zeros and then a bare point is exactly the reduction. */
  lemma {:induction false} TrimReduces(prefix: string, n: nat, k: nat)
    requires k > 0
    ensures StripRight(StripRight(prefix + PointText(n, k), IsZero), IsPoint) == prefix + Tidy(n, k)
  {
    var last, head := DigitChar(n % 10), Shorter(prefix, n, k);
    PointTextEnds(prefix, n, k);
    StripLast(head, last, IsZero);
    if n % 10 != 0 {
      StripLast(head, last, IsPoint);
    } else if k == 1 {
      BarePointGoes(prefix, n);
      assert Reduced(n, 1) == (n / 10, 0);
      assert PointText(n / 10, 0) == Digits(n / 10);
    } else {
      assert head == prefix + PointText(n / 10, k - 1);
      TrimReduces(prefix, n / 10, k - 1);
    }
  }

  // ---------------------------------------------------------------- what is printed

  /** A nonzero decimal with the value of `d` that the printer writes out, and that always has a point. */
  function Chosen(d: Dec): (x: Dec)
    requires FormatDecimal(d).Ok? && d.coef != 0
    ensures Value(x) == Value(d) && x.exp < 0
  {
    var q := Quantize8(d).value;
    if Value(q) == Value(d) then q else (ExactWhenCoarse(d); d)
  }

  lemma {:induction false} FloorOfWhole(n: int)
    ensures RoundHalfEven(n as real) == n
  {
  }

  /** Moving the exponent down multiplies the coefficient. */
  lemma {:induction false} Rescale(n: int, e: int, k: nat)
    ensures Value(Dec(n, e)) == Value(Dec(Shifted(n, k), e - k))
    decreases k
  {
    if k > 0 {
      TenDown(e);
      assert Value(Dec(n, e)) == Value(Dec(10 * n, e - 1)) by {
        assert n as real * (10.0 * Ten(e - 1)) == (10 * n) as real * Ten(e - 1);
      }
      Rescale(10 * n, e - 1, k - 1);
    }
  }

  /** A decimal with at most eight places is its own quantization. */
  lemma {:induction false} ExactWhenCoarse(d: Dec)
    requires Quantize8(d).Ok?
    ensures d.exp >= -8 ==> Value(Quantize8(d).value) == Value(d)
  {
    if d.exp >= -8 {
      var n := Shifted(d.coef, d.exp + 8);
      Rescale(d.coef, d.exp, d.exp + 8);
      assert Ten(-8) * TEN_TO_EIGHT == 1.0;
      assert Value(d) * TEN_TO_EIGHT == n as real * (Ten(-8) * TEN_TO_EIGHT) == n as real;
      FloorOfWhole(n);
    }
  }

  lemma {:induction false} PointInside(prefix: string, n: nat, k: nat)
    requires k > 0
    ensures '.' in prefix + PointText(n, k)
  {
    var i := |prefix| + |Digits(Whole(n, k))|;
    assert (prefix + PointText(n, k))[i] == '.';
  }

  /** Every number that can be printed is printed as sign, digits and the reduced fraction. */
  lemma {:induction false} FormatIsTidy(d: Dec)
    requires FormatDecimal(d).Ok? && d.coef != 0
    ensures var x := Chosen(d); FormatDecimal(d).value == SignText(x.coef) + Tidy(Magnitude(x.coef), -x.exp)
  {
    hide Ten;
    hide Digits;
    hide RoundHalfEven;
    hide StripRight;
    hide Tidy;
    var x := Chosen(d);
    PointInside(SignText(x.coef), Magnitude(x.coef), -x.exp);
    TrimReduces(SignText(x.coef), Magnitude(x.coef), -x.exp);
  }

  // ---------------------------------------------------------------- reading back what was printed

  predicate Printable(c: char) {
    IsDigit(c) || c == '.' || c == '-'
  }

  predicate AllPrintable(s: string) {
    forall i :: 0 <= i < |s| ==> Printable(s[i])
  }

  lemma {:induction false} CleanKeeps(s: string)
    requires AllPrintable(s)
    ensures Clean(s) == s
  {
    if s != "" {
      CleanKeeps(s[1..]);
      assert s == [s[0]] + s[1..];
    }
  }

  lemma {:induction false} StripKeeps(s: string)
    requires AllPrintable(s)
    ensures Strip(s) == s
  {
  }

  lemma {:induction false} CutMisses(s: string, c: char)
    requires c !in s
    ensures Cut(s, c) == (s, None)
  {
    if s != "" {
      CutMisses(s[1..], c);
      assert s == [s[0]] + s[1..];
    }
  }

  lemma {:induction false} CutFinds(a: string, c: char, b: string)
    requires c !in a
    ensures Cut(a + [c] + b, c) == (a, Some(b))
  {
    var s := a + [c] + b;
    if a == "" {
      assert s[1..] == b;
    } else {
      assert s[1..] == a[1..] + [c] + b;
      CutFinds(a[1..], c, b);
      assert a == [a[0]] + a[1..];
    }
  }

  lemma {:induction false} UnsignedReads(n: nat, k: nat)
    ensures ReadUnsigned(PointText(n, k)) == Ok(Places(n, k))
  {
    var whole, rest := Digits(Whole(n, k)), LastDigits(n, k);
    SplitDigitsRead(n, k);
    if k == 0 {
      CutMisses(whole, '.');
      assert PointText(n, k) == whole && whole + "" == whole + rest;
    } else {
      assert PointText(n, k) == whole + ['.'] + rest;
      CutFinds(whole, '.', rest);
    }
  }

  lemma {:induction false} PointTextPrintable(n: nat, k: nat)
    ensures AllPrintable(PointText(n, k)) && PointText(n, k) != "" && IsDigit(PointText(n, k)[0])
  {
    assert PointText(n, k)[0] == Digits(Whole(n, k))[0];
  }

  lemma {:induction false} SignReads(sign: int, unsigned: string)
    requires AllPrintable(unsigned) && unsigned != "" && IsDigit(unsigned[0])
    ensures D(SignText(sign) + unsigned) == ReadNumber(WithSign(sign, 1), unsigned)
  {
    var text := SignText(sign) + unsigned;
    StripKeeps(text);
    CleanKeeps(text);
    assert Signed(text) == (WithSign(sign, 1), unsigned) by {
      if sign < 0 {
        assert text[1..] == unsigned;
      } else {
        assert text == unsigned;
      }
    }
  }

  lemma {:induction false} NumberReads(sign: int, n: nat, k: nat)
    ensures ReadNumber(WithSign(sign, 1), PointText(n, k)) == Ok(Places(WithSign(sign, n), k))
  {
    PointTextPrintable(n, k);
    CutMisses(PointText(n, k), 'e');
    UnsignedReads(n, k);
  }

  lemma {:induction false} TextReads(sign: int, n: nat, k: nat)
    ensures D(SignText(sign) + PointText(n, k)) == Ok(Places(WithSign(sign, n), k))
  {
    PointTextPrintable(n, k);
    SignReads(sign, PointText(n, k));
    NumberReads(sign, n, k);
  }

  lemma {:induction false} ReducedKeepsValue(n: nat, k: nat)
    ensures Value(Places(Reduced(n, k).0, Reduced(n, k).1)) == Value(Places(n, k))
  {
    if k > 0 && n % 10 == 0 {
      ReducedKeepsValue(n / 10, k - 1);
      Rescale(n / 10, 1 - k, 1);
      assert Shifted(n / 10, 1) == Shifted(n, 0) == n;
    }
  }

  lemma {:induction false} SignKeepsValue(sign: int, a: Dec, b: Dec)
    requires Value(a) == Value(b)
    ensures Value(a.(coef := WithSign(sign, a.coef))) == Value(b.(coef := WithSign(sign, b.coef)))
  {
    NegativeValue(a);
    NegativeValue(b);
  }

  lemma {:induction false} NegativeValue(a: Dec)
    ensures Value(a.(coef := -a.coef)) == -Value(a)
  {
    var n, t := a.coef as real, Ten(a.exp);
    assert (-n) * t == -(n * t);
  }

  lemma {:induction false} ZeroReads()
    ensures D("0") == Ok(Dec(0, 0))
  {
    assert Digits(0) == [DigitChar(0)] == "0";
    assert SignText(0) + PointText(0, 0) == "0";
    TextReads(0, 0, 0);
  }

  /** The decimal of the same value that has no more places than it needs. */
  function Canonical(x: Dec): Dec
    requires x.exp <= 0
  {
    var (n, k) := Reduced(Magnitude(x.coef), -x.exp);
    Places(WithSign(x.coef, n), k)
  }

  function TextOf(c: Dec): string
    requires c.exp <= 0
  {
    SignText(c.coef) + PointText(Magnitude(c.coef), -c.exp)
  }

  lemma {:induction false} CanonicalValue(x: Dec)
    requires x.exp <= 0
    ensures Value(Canonical(x)) == Value(x)
  {
    var m, places := Magnitude(x.coef), -x.exp;
    var (n, k) := Reduced(m, places);
    ReducedKeepsValue(m, places);
    SignKeepsValue(x.coef, Places(n, k), Places(m, places));
    assert Places(WithSign(x.coef, m), places) == x;
  }

  lemma {:induction false} CanonicalIsReduced(x: Dec)
    requires x.exp <= 0
    ensures Canonical(x).exp <= 0 && (Canonical(x).exp < 0 ==> Canonical(x).coef % 10 != 0)
  {
  }

  lemma {:induction false} CanonicalReads(x: Dec)
    requires x.exp <= 0
    ensures D(SignText(x.coef) + Tidy(Magnitude(x.coef), -x.exp)) == Ok(Canonical(x))
  {
    var r := Reduced(Magnitude(x.coef), -x.exp);
    TidyIsPointText(Magnitude(x.coef), -x.exp, r);
    TextReads(x.coef, r.0, r.1);
  }

  lemma {:induction false} TidyIsPointText(n: nat, k: nat, r: (nat, nat))
    requires r == Reduced(n, k)
    ensures Tidy(n, k) == PointText(r.0, r.1)
  {
  }

  lemma {:induction false} ReducedIsNonzero(n: nat, k: nat)
    requires n != 0
    ensures Reduced(n, k).0 != 0
  {
    if k > 0 && n % 10 == 0 {
      ReducedIsNonzero(n / 10, k - 1);
    }
  }

  lemma {:induction false} CanonicalText(x: Dec)
    requires x.exp <= 0 && x.coef != 0
    ensures TextOf(Canonical(x)) == SignText(x.coef) + Tidy(Magnitude(x.coef), -x.exp)
  {
    ReducedIsNonzero(Magnitude(x.coef), -x.exp);
  }

  lemma {:induction false} ZeroValue(d: Dec)
    ensures Value(d) == 0.0 <==> d.coef == 0
  {
    var n, t := d.coef as real, Ten(d.exp);
    if n > 0.0 {
      assert n * t > 0.0;
    } else if n < 0.0 {
      assert (-n) * t > 0.0;
    }
  }

  /** A nonzero number is printed as the text of its canonical form, and reads back as that form. */
  lemma {:induction false} PrintsCanonically(d: Dec)
    requires FormatDecimal(d).Ok? && d.coef != 0
    ensures var c := Canonical(Chosen(d)); FormatDecimal(d) == Ok(TextOf(c)) && D(TextOf(c)) == Ok(c)
  {
    hide D;
    hide Trim;
    hide Fixed;
    hide Reduced;
    FormatIsTidy(d);
    FormatKeepsSign(d);
    TidyText(FormatDecimal(d).value, Chosen(d));
  }

  lemma {:induction false} TidyText(text: string, x: Dec)
    requires x.exp <= 0 && x.coef != 0 && text == SignText(x.coef) + Tidy(Magnitude(x.coef), -x.exp)
    ensures text == TextOf(Canonical(x)) && D(text) == Ok(Canonical(x))
  {
    CanonicalText(x);
    CanonicalReads(x);
  }

  lemma {:induction false} FormatKeepsSign(d: Dec)
    requires FormatDecimal(d).Ok? && d.coef != 0
    ensures Chosen(d).coef != 0
  {
    ZeroValue(d);
    ZeroValue(Chosen(d));
  }

  /** Reading what was printed gives the number back, for every number that can be printed at all. */
  lemma {:induction false} RoundTrip(d: Dec)
    requires FormatDecimal(d).Ok?
    ensures D(FormatDecimal(d).value).Ok? && Value(D(FormatDecimal(d).value).value) == Value(d)
  {
    if d.coef == 0 {
      ZeroReads();
      ZeroValue(d);
      ZeroValue(Dec(0, 0));
    } else {
      PrintsCanonically(d);
      CanonicalValue(Chosen(d));
    }
  }

  // ---------------------------------------------------------------- one text for each number

  lemma {:induction false} SmallerStep(n: int, m: int, e: int, k: nat)
    requires k > 0 && Value(Dec(n, e)) == Value(Dec(m, e - k))
    ensures m == Shifted(n, k) && m % 10 == 0
  {
    Rescale(n, e, k);
    SameExponent(Shifted(n, k), m, e - k);
    ShiftedEndsInZero(n, k);
  }

  lemma {:induction false} ShiftedEndsInZero(n: int, k: nat)
    requires k > 0
    ensures Shifted(n, k) % 10 == 0
    decreases k
  {
    if k > 1 {
      ShiftedEndsInZero(10 * n, k - 1);
    } else {
      assert Shifted(n, 1) == Shifted(10 * n, 0) == 10 * n;
    }
  }

  lemma {:induction false} Cancel(a: real, b: real, t: real)
    requires t > 0.0 && a * t == b * t
    ensures a == b
  {
    assert (a - b) * t == 0.0;
  }

  lemma {:induction false} SameExponent(n: int, m: int, e: int)
    requires Value(Dec(n, e)) == Value(Dec(m, e))
    ensures n == m
  {
    Cancel(n as real, m as real, Ten(e));
  }

  /** Reduced forms are unique: two of them with one value are the same. */
  lemma {:induction false} ReducedIsUnique(a: Dec, b: Dec)
    requires Value(a) == Value(b) && a.exp <= 0 && b.exp <= 0
    requires (a.exp < 0 ==> a.coef % 10 != 0) && (b.exp < 0 ==> b.coef % 10 != 0)
    ensures a == b
  {
    if b.exp < a.exp {
      SmallerStep(a.coef, b.coef, a.exp, a.exp - b.exp);
    } else if a.exp < b.exp {
      SmallerStep(b.coef, a.coef, b.exp, b.exp - a.exp);
    } else {
      SameExponent(a.coef, b.coef, a.exp);
    }
  }

  /** Numerically equal decimals print alike, whatever their exponents, and unequal ones differ. */
  lemma {:induction false} PrintsAlikeIffEqual(a: Dec, b: Dec)
    requires FormatDecimal(a).Ok? && FormatDecimal(b).Ok?
    ensures FormatDecimal(a) == FormatDecimal(b) <==> Value(a) == Value(b)
  {
    RoundTrip(a);
    RoundTrip(b);
    ZeroValue(a);
    ZeroValue(b);
    if Value(a) == Value(b) && a.coef != 0 {
      EqualPrintAlike(a, b);
    }
  }

  lemma {:induction false} EqualPrintAlike(a: Dec, b: Dec)
    requires FormatDecimal(a).Ok? && FormatDecimal(b).Ok? && a.coef != 0 && b.coef != 0 && Value(a) == Value(b)
    ensures FormatDecimal(a) == FormatDecimal(b)
  {
    PrintsCanonically(a);
    PrintsCanonically(b);
    var x, y := Chosen(a), Chosen(b);
    SameCanonicalForm(x, y);
  }

  lemma {:induction false} SameCanonicalForm(x: Dec, y: Dec)
    requires x.exp <= 0 && y.exp <= 0 && Value(x) == Value(y)
    ensures Canonical(x) == Canonical(y)
  {
    CanonicalValue(x);
    CanonicalValue(y);
    CanonicalIsReduced(x);
    CanonicalIsReduced(y);
    ReducedIsUnique(Canonical(x), Canonical(y));
  }

  /** Nothing printed ends in a bare point, or in a zero behind the point. */
  lemma {:induction false} PrintsTidily(d: Dec)
    requires FormatDecimal(d).Ok?
    ensures var text := FormatDecimal(d).value;
            text != "" && IsDigit(text[|text| - 1]) && ('.' in text ==> text[|text| - 1] != '0')
  {
    if d.coef != 0 {
      FormatIsTidy(d);
      var x := Chosen(d);
      var (n, k) := Reduced(Magnitude(x.coef), -x.exp);
      if k > 0 {
        PointTextEnds(SignText(x.coef), n, k);
      }
    }
  }

  // ---------------------------------------------------------------- which texts are numbers

  /** A written number: a sign, digits with perhaps a point, and perhaps an exponent with a sign and digits. */
  datatype Written = Written(sign: string, whole: string, fraction: Option<string>, exponent: Option<(string, string)>)

  predicate IsSign(s: string) {
    s == "" || s == "+" || s == "-"
  }

  predicate WellWritten(w: Written) {
    && IsSign(w.sign) && AllDigits(w.whole) && AllDigits(w.fraction.GetOr("")) && w.whole + w.fraction.GetOr("") != ""
    && (w.exponent.Some? ==> IsSign(w.exponent.value.0) && w.exponent.value.1 != "" && AllDigits(w.exponent.value.1))
  }

  function Mantissa(w: Written): string {
    w.whole + if w.fraction.Some? then "." + w.fraction.value else ""
  }

  function Spelled(w: Written): string {
    w.sign + Mantissa(w) + if w.exponent.Some? then "e" + w.exponent.value.0 + w.exponent.value.1 else ""
  }

  function SignFactor(sign: string): int {
    if sign == "-" then -1 else 1
  }

  /** The digits as one number, with the point and the exponent as the power of ten. */
  function Meaning(w: Written): Dec
    requires WellWritten(w)
  {
    var digits := Num(w.whole + w.fraction.GetOr(""));
    var shift := if w.exponent.Some? then SignFactor(w.exponent.value.0) * Num(w.exponent.value.1) else 0;
    Dec(SignFactor(w.sign) * digits, shift - |w.fraction.GetOr("")|)
  }

  lemma {:induction false} SignedReads(sign: string, rest: string)
    requires IsSign(sign) && rest != "" && rest[0] != '+' && rest[0] != '-'
    ensures Signed(sign + rest) == (SignFactor(sign), rest)
  {
    if sign == "" {
      assert sign + rest == rest;
    } else {
      assert (sign + rest)[0] == sign[0] && (sign + rest)[1..] == rest;
    }
  }

  lemma {:induction false} MantissaReads(w: Written)
    requires WellWritten(w)
    ensures 'e' !in Mantissa(w) && Mantissa(w) != "" && (Mantissa(w)[0] == '.' || IsDigit(Mantissa(w)[0]))
    ensures ReadUnsigned(Mantissa(w)) == Ok(Dec(Num(w.whole + w.fraction.GetOr("")), -|w.fraction.GetOr("")|))
  {
    if w.fraction.Some? {
      assert Mantissa(w) == w.whole + ['.'] + w.fraction.value;
      CutFinds(w.whole, '.', w.fraction.value);
    } else {
      assert Mantissa(w) == w.whole == w.whole + "";
      CutMisses(w.whole, '.');
    }
  }

  lemma {:induction false} ExponentReads(sign: string, digits: string)
    requires IsSign(sign) && digits != "" && AllDigits(digits)
    ensures ReadExponent(sign + digits) == Ok(SignFactor(sign) * Num(digits))
  {
    SignedReads(sign, digits);
  }

  /** What stands after the sign. */
  function Unsigned(w: Written): string {
    Mantissa(w) + if w.exponent.Some? then "e" + w.exponent.value.0 + w.exponent.value.1 else ""
  }

  lemma {:induction false} UnsignedMeans(w: Written)
    requires WellWritten(w)
    ensures ReadNumber(SignFactor(w.sign), Unsigned(w)) == Ok(Meaning(w))
  {
    hide ReadUnsigned;
    hide ReadExponent;
    hide Mantissa;
    hide Num;
    MantissaReads(w);
    if w.exponent.Some? {
      var (sign, digits) := w.exponent.value;
      assert Unsigned(w) == Mantissa(w) + ['e'] + (sign + digits);
      CutFinds(Mantissa(w), 'e', sign + digits);
      ExponentReads(sign, digits);
    } else {
      assert Unsigned(w) == Mantissa(w);
      CutMisses(Mantissa(w), 'e');
    }
  }

  lemma {:induction false} CleanOfNothing()
    ensures Clean("") == ""
  {
  }

  lemma {:induction false} WrittenReads(text: string, w: Written)
    requires WellWritten(w) && Clean(Strip(text)) == Spelled(w)
    ensures D(text) == Ok(Meaning(w))
  {
    hide ReadNumber;
    hide Mantissa;
    hide Clean;
    hide Strip;
    hide AllDigits;
    hide Num;
    hide Meaning;
    CleanOfNothing();
    MantissaReads(w);
    UnsignedMeans(w);
    assert Spelled(w) == w.sign + Unsigned(w);
    SignedReads(w.sign, Unsigned(w));
  }

  lemma {:induction false} CutBack(s: string, c: char)
    ensures var (a, b) := Cut(s, c); c !in a && s == a + if b.Some? then [c] + b.value else ""
  {
    if s != "" && s[0] != c {
      CutBack(s[1..], c);
      assert s == [s[0]] + s[1..];
    } else if s != "" {
      assert s == [c] + s[1..];
    }
  }

  function SignOf(s: string): string {
    if s != "" && (s[0] == '-' || s[0] == '+') then [s[0]] else ""
  }

  lemma {:induction false} SignedBack(s: string)
    ensures IsSign(SignOf(s)) && s == SignOf(s) + Signed(s).1
  {
  }

  /** The parts of a text that reads as a number. */
  function PartsOf(text: string): Written {
    var clean := Clean(Strip(text));
    var (mantissa, exponent) := Cut(Signed(clean).1, 'e');
    var (whole, fraction) := Cut(mantissa, '.');
    Written(SignOf(clean), whole, fraction,
            if exponent.Some? then Some((SignOf(exponent.value), Signed(exponent.value).1)) else None)
  }

  lemma {:induction false} PartsSpellIt(text: string)
    ensures Spelled(PartsOf(text)) == Clean(Strip(text))
  {
    hide Cut;
    hide Clean;
    hide Strip;
    hide SignOf;
    hide Signed;
    var clean := Clean(Strip(text));
    var (mantissa, exponent) := Cut(Signed(clean).1, 'e');
    SignedBack(clean);
    CutBack(Signed(clean).1, 'e');
    CutBack(mantissa, '.');
    if exponent.Some? {
      SignedBack(exponent.value);
    }
  }

  lemma {:induction false} DigitsApart(a: string, b: string)
    ensures AllDigits(a + b) <==> AllDigits(a) && AllDigits(b)
  {
    if AllDigits(a + b) {
      assert forall i :: 0 <= i < |a| ==> (a + b)[i] == a[i];
      assert forall i :: 0 <= i < |b| ==> (a + b)[|a| + i] == b[i];
    }
  }

  lemma {:induction false} ReadIsWellWritten(text: string)
    requires D(text).Ok?
    ensures WellWritten(PartsOf(text))
  {
    hide Clean;
    hide Strip;
    hide Cut;
    hide AllDigits;
    hide Num;
    var clean := Clean(Strip(text));
    SignedBack(clean);
    var w := PartsOf(text);
    DigitsApart(w.whole, w.fraction.GetOr(""));
    var exponent := Cut(Signed(clean).1, 'e').1;
    if exponent.Some? {
      SignedBack(exponent.value);
    }
  }

  /** `D` accepts exactly the texts that, without surrounding blanks and underscores, are a written number, and
      reads the number they mean. */
  lemma {:induction false} ReadsIff(text: string)
    ensures D(text).Ok? <==> exists w :: WellWritten(w) && Clean(Strip(text)) == Spelled(w)
    ensures forall w :: WellWritten(w) && Clean(Strip(text)) == Spelled(w) ==> D(text) == Ok(Meaning(w))
    ensures D(text).Err? ==> D(text).error == if Strip(text) == "" then EmptyText else InvalidText
  {
    hide D;
    hide Clean;
    hide Strip;
    hide Spelled;
    hide WellWritten;
    hide Meaning;
    forall w | WellWritten(w) && Clean(Strip(text)) == Spelled(w)
      ensures D(text) == Ok(Meaning(w))
    {
      WrittenReads(text, w);
    }
    if D(text).Ok? {
      ReadIsWellWritten(text);
      PartsSpellIt(text);
    }
    ErrorsOf(text);
  }

  lemma {:induction false} ErrorsOf(text: string)
    ensures D(text).Err? ==> D(text).error == if Strip(text) == "" then EmptyText else InvalidText
  {
    hide Clean;
    hide Strip;
  }

  ghost predicate Blank(s: string) {
    forall i :: 0 <= i < |s| ==> IsSpace(s[i])
  }

  /** Stripping takes off blanks only, at both ends, and all of them. */
  lemma {:induction false} StripIsInner(text: string)
    ensures var inner := Strip(text);
            && (inner != "" ==> !IsSpace(inner[0]) && !IsSpace(inner[|inner| - 1]))
            && exists before, after :: Blank(before) && Blank(after) && text == before + inner + after
  {
    hide IsSpace;
    var left := StripLeft(text);
    var before := LeftBlanks(text);
    var after := RightBlanks(left);
    assert text == before + Strip(text) + after;
  }

  lemma {:induction false} LeftBlanks(s: string) returns (before: string)
    ensures Blank(before) && s == before + StripLeft(s)
    ensures StripLeft(s) != "" ==> !IsSpace(StripLeft(s)[0])
  {
    hide IsSpace;
    if s != "" && IsSpace(s[0]) {
      var rest := LeftBlanks(s[1..]);
      before := [s[0]] + rest;
      assert s == [s[0]] + s[1..];
    } else {
      before := "";
    }
  }

  lemma {:induction false} RightBlanks(s: string) returns (after: string)
    ensures var kept := StripRight(s, IsSpace);
            && Blank(after) && s == kept + after
            && (kept != "" ==> kept[0] == s[0] && !IsSpace(kept[|kept| - 1]))
  {
    hide IsSpace;
    if s != "" && IsSpace(s[|s| - 1]) {
      var rest := RightBlanks(s[..|s| - 1]);
      after := rest + [s[|s| - 1]];
    } else {
      after := "";
    }
  }
}
