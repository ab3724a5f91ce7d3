/**
 * The decimal reformatter of ir/json.rs: `number`, `exponent_form` and `fixed_form`,
 * against the number grammar of section 6 of RFC 8259 and the exact value a text has.
 */
module Numbers {
  import opened Basics

  const I64_MAX: int := 0x7fff_ffff_ffff_ffff
  const I64_MIN: int := -0x8000_0000_0000_0000

  // ---------------------------------------------------------------- digits

  predicate IsDigit(c: char) {
    '0' <= c <= '9'
  }

  predicate AllDigits(s: string) {
    forall i :: 0 <= i < |s| ==> IsDigit(s[i])
  }

  /** The number a string of digits writes. */
  function Nat(s: string): nat
    requires AllDigits(s)
  {
    if s == "" then 0 else 10 * Nat(s[..|s| - 1]) + (s[|s| - 1] as int - '0' as int)
  }

  function Zeros(n: nat): (z: string)
    ensures |z| == n && AllDigits(z)
    ensures forall i :: 0 <= i < n ==> z[i] == '0'
  {
    seq(n, _ => '0')
  }

  /** x times ten to the k, for any k. */
  ghost function Times10(x: real, k: int): real
    decreases if k < 0 then -k else k
  {
    if k == 0 then x else if k > 0 then 10.0 * Times10(x, k - 1) else Times10(x, k + 1) / 10.0
  }

  // ---------------------------------------------------------------- the grammar

  /** The parts of a number text; `exp` is the mark and all that follows it. */
  datatype Exponent = Exponent(mark: char, text: string)
  datatype Parts = Parts(negative: bool, whole: string, frac: Option<string>, exp: Option<Exponent>)

  /** exp's own text: an optional sign, then digits. */
  predicate SignedDigits(s: string) {
    var d := if s != "" && (s[0] == '-' || s[0] == '+') then s[1..] else s;
    d != "" && AllDigits(d)
  }

  /** Section 6 of RFC 8259: what each part may be. */
  predicate WellFormed(p: Parts) {
    && p.whole != "" && AllDigits(p.whole) && (p.whole[0] == '0' ==> |p.whole| == 1)
    && (p.frac.Some? ==> p.frac.value != "" && AllDigits(p.frac.value))
    && (p.exp.Some? ==> p.exp.value.mark in {'e', 'E'} && SignedDigits(p.exp.value.text))
  }

  function Mantissa(p: Parts): string {
    p.whole + (if p.frac.Some? then "." + p.frac.value else "")
  }

  function Body(p: Parts): string {
    Mantissa(p) + (if p.exp.Some? then [p.exp.value.mark] + p.exp.value.text else "")
  }

  /** Section 6 of RFC 8259: the text its parts make. */
  function Render(p: Parts): string {
    (if p.negative then "-" else "") + Body(p)
  }

  /** Where the first of `marks` is, or the length when there is none (`str::find`). */
  function Find(s: string, marks: set<char>): (i: nat)
    ensures i <= |s|
    ensures forall k :: 0 <= k < i ==> s[k] !in marks
    ensures i < |s| ==> s[i] in marks
  {
    if s == "" || s[0] in marks then 0 else 1 + Find(s[1..], marks)
  }

  /** The split `number` makes of a text: at the mark of the exponent, then at the point. */
  function SplitBody(negative: bool, body: string): Parts {
    var i := Find(body, {'e', 'E'});
    var exp := if i < |body| then Some(Exponent(body[i], body[i + 1..])) else None;
    SplitMantissa(negative, body[..i], exp)
  }

  function SplitMantissa(negative: bool, mantissa: string, exp: Option<Exponent>): Parts {
    var d := Find(mantissa, {'.'});
    Parts(negative, mantissa[..d], if d < |mantissa| then Some(mantissa[d + 1..]) else None, exp)
  }

  function Split(text: string): Parts {
    if text != "" && text[0] == '-' then SplitBody(true, text[1..]) else SplitBody(false, text)
  }

  /** A number text of section 6 of RFC 8259. */
  predicate IsNumber(text: string) {
    WellFormed(Split(text)) && Render(Split(text)) == text
  }

  function FracText(p: Parts): string {
    if p.frac.Some? then p.frac.value else ""
  }

  /** The exponent an exponent text writes. */
  function ExpValue(s: string): int
    requires SignedDigits(s)
  {
    if s[0] == '-' then -(Nat(s[1..]) as int) else if s[0] == '+' then Nat(s[1..]) else Nat(s)
  }

  function ExpOf(p: Parts): int
    requires WellFormed(p)
  {
    if p.exp.Some? then ExpValue(p.exp.value.text) else 0
  }

  ghost function Signed(negative: bool, magnitude: real): real {
    if negative then -magnitude else magnitude
  }

  /** The exact value of a number text. */
  ghost function PartsValue(p: Parts): real
    requires WellFormed(p)
  {
    Signed(p.negative, Times10(Nat(p.whole + FracText(p)) as real, ExpOf(p) - |FracText(p)|))
  }

  ghost function ValueOf(text: string): real
    requires IsNumber(text)
  {
    PartsValue(Split(text))
  }

  // ---------------------------------------------------------------- the code

  /** What a sum of two i64s is where overflow is not checked. */
  function Wrap(x: int): int {
    if x > I64_MAX then x - 0x1_0000_0000_0000_0000
    else if x < I64_MIN then x + 0x1_0000_0000_0000_0000
    else x
  }

  /** `parse::<i64>().unwrap_or(0)` of an exponent text. */
  function ParsedExp(s: string): int
    requires SignedDigits(s)
  {
    if I64_MIN <= ExpValue(s) <= I64_MAX then ExpValue(s) else 0
  }

  /** `trim_start_matches('0')`. */
  function TrimLeft(s: string): string {
    if s != "" && s[0] == '0' then TrimLeft(s[1..]) else s
  }

  /** `trim_end_matches('0')`. */
  function TrimRight(s: string): string {
    if s != "" && s[|s| - 1] == '0' then TrimRight(s[..|s| - 1]) else s
  }

  /** `format!("{n}")` of a natural number and of an integer. */
  function NatText(n: nat): (s: string)
    ensures s != "" && AllDigits(s) && (s[0] == '0' ==> |s| == 1)
  {
    var last := ('0' as int + n % 10) as char;
    if n < 10 then [last] else NatText(n / 10) + [last]
  }

  function IntText(i: int): string {
    if i < 0 then "-" + NatText(-i) else NatText(i)
  }

  function ExponentForm(digits: string, e: int): string
    requires digits != ""
  {
    if digits == "0" then "0.0e0"
    else if |digits| == 1 then digits + ".0e" + IntText(Wrap(e - 1))
    else digits[..1] + "." + digits[1..] + "e" + IntText(Wrap(e - 1))
  }

  function FixedForm(digits: string, e: int): string
    requires 0 <= e <= 7
  {
    if e <= 0 then "0." + Zeros(-e) + digits
    else if |digits| <= e then digits + Zeros(e - |digits|) + ".0"
    else digits[..e] + "." + digits[e..]
  }

  /** The coefficient, its power of ten, its digits without trailing zeros, and e (lines 100-117). */
  datatype Scientific = Scientific(coefficient: string, power: int, digits: string, e: int)

  function Coefficient(p: Parts): string {
    var trimmed := TrimLeft(p.whole + FracText(p));
    if trimmed == "" then "0" else trimmed
  }

  /** The exponent as it is read. */
  function ExpRead(p: Parts): int
    requires WellFormed(p)
  {
    if p.exp.Some? then ParsedExp(p.exp.value.text) else 0
  }

  function ReadScientific(p: Parts): Scientific
    requires WellFormed(p)
  {
    var power := Wrap(ExpRead(p) - |FracText(p)|);
    var coefficient := Coefficient(p);
    if coefficient == "0" then Scientific(coefficient, power, "0", 0)
    else Scientific(coefficient, power, TrimRight(coefficient), Wrap(|coefficient| + power))
  }

  /** What there is to read: the exponent and the sums as integers, which no i64 bounds. */
  function Whole(p: Parts): Scientific
    requires WellFormed(p)
  {
    var power := ExpOf(p) - |FracText(p)|;
    var coefficient := Coefficient(p);
    if coefficient == "0" then Scientific(coefficient, power, "0", 0)
    else Scientific(coefficient, power, TrimRight(coefficient), |coefficient| + power)
  }

  predicate Past1e19(s: Scientific) {
    s.digits != "0" && (s.e > 20 || (s.e == 20 && s.digits != "1"))
  }

  predicate WrittenAsInteger(s: Scientific) {
    !Past1e19(s) && 0 <= s.power <= 1024
  }

  predicate WrittenFixed(s: Scientific) {
    !Past1e19(s) && !WrittenAsInteger(s) && 0 <= s.e <= 7
  }

  function Formatted(s: Scientific): string
    requires s.digits != ""
  {
    if Past1e19(s) then ExponentForm(s.digits, s.e)
    else if 0 <= s.power <= 1024 then
      s.coefficient + (if s.coefficient != "0" then Zeros(s.power) else "")
    else if s.e < 0 || s.e > 7 then ExponentForm(s.digits, s.e)
    else FixedForm(s.digits, s.e)
  }

  /** Digits with no zero at either end, or the one digit of zero. */
  predicate Trimmed(digits: string) {
    && digits != "" && AllDigits(digits)
    && (digits != "0" ==> digits[0] != '0' && digits[|digits| - 1] != '0')
  }

  /** What is read: the coefficient is the digits and some zeros. */
  predicate Placed(s: Scientific) {
    && Trimmed(s.digits)
    && (s.digits == "0" <==> s.coefficient == "0")
    && (s.digits == "0" ==> s.e == 0)
    && |s.digits| <= |s.coefficient|
    && s.coefficient == s.digits + Zeros(|s.coefficient| - |s.digits|)
  }

  /** And e places the point before them. */
  predicate Exact(s: Scientific) {
    s.digits != "0" ==> s.e == |s.coefficient| + s.power
  }

  lemma ReadIsPlaced(p: Parts)
    requires WellFormed(p)
    ensures Placed(ReadScientific(p)) && Placed(Whole(p)) && Exact(Whole(p))
    ensures ReadScientific(p).coefficient == Whole(p).coefficient && ReadScientific(p).digits == Whole(p).digits
  {
    var t := TrimLeft(p.whole + FracText(p));
    TrimLeftDigits(p.whole + FracText(p));
    if t != "" {
      TrimRightDigits(t);
    }
  }

  /** The coefficient is the number all the digits of the text write. */
  lemma ReadKeepsDigits(p: Parts)
    requires WellFormed(p)
    ensures var c := Coefficient(p);
      AllDigits(c) && Nat(c) == Nat(p.whole + FracText(p)) && (Nat(c) == 0 <==> c == "0")
  {
    var all := p.whole + FracText(p);
    TrimLeftDigits(all);
    if TrimLeft(all) == "" {
      assert Nat("0") == 0;
    } else {
      Magnitude(TrimLeft(all));
    }
  }

  function Number(text: string): string
    requires IsNumber(text)
  {
    var p := Split(text);
    var s := ReadScientific(p);
    ReadIsPlaced(p);
    (if p.negative && s.coefficient != "0" then "-" else "") + Formatted(s)
  }

  // ---------------------------------------------------------------- digits and zeros

  lemma {:induction false} TrimLeftDigits(s: string)
    requires AllDigits(s)
    ensures AllDigits(TrimLeft(s)) && Nat(TrimLeft(s)) == Nat(s)
    ensures TrimLeft(s) != "" ==> TrimLeft(s)[0] != '0'
  {
    if s != "" && s[0] == '0' {
      TrimLeftDigits(s[1..]);
      LeadingZero(s[1..]);
      assert s == "0" + s[1..];
    }
  }

  lemma {:induction false} LeadingZero(s: string)
    requires AllDigits(s)
    ensures AllDigits("0" + s) && Nat("0" + s) == Nat(s)
  {
    var t := "0" + s;
    if s != "" {
      LeadingZero(s[..|s| - 1]);
      assert t[..|t| - 1] == "0" + s[..|s| - 1];
    } else {
      assert t[..0] == "";
    }
  }

  lemma {:induction false} LeadingZeros(n: nat, s: string)
    requires AllDigits(s)
    ensures AllDigits(Zeros(n) + s) && Nat(Zeros(n) + s) == Nat(s)
  {
    if n == 0 {
      assert Zeros(0) + s == s;
    } else {
      LeadingZeros(n - 1, s);
      LeadingZero(Zeros(n - 1) + s);
      assert Zeros(n) + s == "0" + (Zeros(n - 1) + s);
    }
  }

  lemma {:induction false} TrailingZeros(s: string, n: nat)
    requires AllDigits(s)
    ensures AllDigits(s + Zeros(n)) && Nat(s + Zeros(n)) as real == Times10(Nat(s) as real, n)
  {
    var t := s + Zeros(n);
    if n == 0 {
      assert t == s;
    } else {
      TrailingZeros(s, n - 1);
      assert t[..|t| - 1] == s + Zeros(n - 1) && t[|t| - 1] == '0';
    }
  }

  lemma {:induction false} TrimRightDigits(s: string)
    requires AllDigits(s)
    ensures AllDigits(TrimRight(s)) && |TrimRight(s)| <= |s|
    ensures s == TrimRight(s) + Zeros(|s| - |TrimRight(s)|)
    ensures s != "" && s[0] != '0' ==> TrimRight(s) != "" && TrimRight(s)[0] == s[0]
    ensures TrimRight(s) != "" ==> TrimRight(s)[|TrimRight(s)| - 1] != '0'
  {
    if s != "" && s[|s| - 1] == '0' {
      TrimRightDigits(s[..|s| - 1]);
    }
  }

  function Ten(n: nat): nat {
    if n == 0 then 1 else 10 * Ten(n - 1)
  }

  /** A string of digits without a leading zero has as many digits as its value needs. */
  lemma {:induction false} Magnitude(s: string)
    requires AllDigits(s) && s != "" && s[0] != '0'
    ensures Ten(|s| - 1) <= Nat(s) < Ten(|s|)
    ensures s[|s| - 1] != '0' && s != "1" ==> Ten(|s| - 1) < Nat(s)
  {
    var front := s[..|s| - 1];
    if |s| == 1 {
      assert Nat(front) == 0;
      assert s == [s[0]];
    } else {
      Magnitude(front);
    }
  }

  // ---------------------------------------------------------------- powers of ten

  lemma {:induction false} TenIsTimes10(n: nat)
    ensures Ten(n) as real == Times10(1.0, n)
  {
    if n > 0 {
      TenIsTimes10(n - 1);
    }
  }

  lemma Times10Step(x: real, k: int)
    ensures Times10(x, k + 1) == 10.0 * Times10(x, k)
  {
  }

  lemma {:induction false} Times10Sum(x: real, n: nat, k: int)
    ensures Times10(Times10(x, n), k) == Times10(x, n + k)
    decreases if k < 0 then -k else k
  {
    if k > 0 {
      Times10Sum(x, n, k - 1);
      Times10Step(x, n + k - 1);
    } else if k < 0 {
      Times10Sum(x, n, k + 1);
      Times10Step(x, n + k);
    }
  }

  lemma {:induction false} Times10Order(x: real, y: real, k: int)
    requires x < y
    ensures Times10(x, k) < Times10(y, k)
    decreases if k < 0 then -k else k
  {
    if k > 0 {
      Times10Order(x, y, k - 1);
    } else if k < 0 {
      Times10Order(x, y, k + 1);
    }
  }

  lemma {:induction false} Times10Zero(k: int)
    ensures Times10(0.0, k) == 0.0
    decreases if k < 0 then -k else k
  {
    if k > 0 {
      Times10Zero(k - 1);
    } else if k < 0 {
      Times10Zero(k + 1);
    }
  }

  /** A larger power of ten is at least ten times a smaller one. */
  lemma {:induction false} PowerOrder(a: int, b: int)
    requires a < b
    ensures 0.0 < 10.0 * Times10(1.0, a) <= Times10(1.0, b)
    decreases b - a
  {
    Times10Order(0.0, 1.0, a);
    Times10Zero(a);
    Times10Step(1.0, b - 1);
    if a < b - 1 {
      PowerOrder(a, b - 1);
    }
  }

  // ---------------------------------------------------------------- texts of integers

  lemma {:induction false} NatTextValue(n: nat)
    ensures Nat(NatText(n)) == n
  {
    var t := NatText(n);
    if n >= 10 {
      NatTextValue(n / 10);
      assert t[..|t| - 1] == NatText(n / 10);
    } else {
      assert t[..|t| - 1] == "";
    }
  }

  lemma IntTextValue(i: int)
    ensures SignedDigits(IntText(i)) && ExpValue(IntText(i)) == i
  {
    NatTextValue(if i < 0 then -i else i);
    if i < 0 {
      assert IntText(i)[1..] == NatText(-i);
    } else {
      assert IsDigit(NatText(i)[0]);
    }
  }

  // ---------------------------------------------------------------- reading a text's parts back

  lemma {:induction false} FindAt(a: string, b: string, marks: set<char>)
    requires forall i :: 0 <= i < |a| ==> a[i] !in marks
    requires b != "" ==> b[0] in marks
    ensures Find(a + b, marks) == |a|
  {
    if a == "" {
      assert a + b == b;
    } else {
      assert (a + b)[1..] == a[1..] + b;
      FindAt(a[1..], b, marks);
    }
  }

  /** The grammar is unambiguous: the parts of a rendered text are the parts it was rendered from. */
  lemma RenderedIsRead(p: Parts)
    requires WellFormed(p)
    ensures Split(Render(p)) == p
  {
    BodyIsRead(p);
    var body, text := Body(p), Render(p);
    assert body[0] == p.whole[0] && IsDigit(body[0]);
    if p.negative {
      assert text == "-" + body && text[1..] == body;
    } else {
      assert text == "" + body == body;
    }
  }

  lemma BodyIsRead(p: Parts)
    requires WellFormed(p)
    ensures SplitBody(p.negative, Body(p)) == p
  {
    MantissaMarks(p);
    BodyIsSplit(p.negative, Mantissa(p), p.exp);
    MantissaIsRead(p);
  }

  lemma BodyIsSplit(negative: bool, m: string, exp: Option<Exponent>)
    requires forall i :: 0 <= i < |m| ==> m[i] !in {'e', 'E'}
    requires exp.Some? ==> exp.value.mark in {'e', 'E'}
    ensures SplitBody(negative, m + (if exp.Some? then [exp.value.mark] + exp.value.text else ""))
      == SplitMantissa(negative, m, exp)
  {
    var tail := if exp.Some? then [exp.value.mark] + exp.value.text else "";
    var body := m + tail;
    FindAt(m, tail, {'e', 'E'});
    assert body[..|m|] == m;
    if exp.Some? {
      assert body[|m|] == exp.value.mark && body[|m| + 1..] == exp.value.text;
    }
  }

  lemma MantissaIsRead(p: Parts)
    requires WellFormed(p)
    ensures SplitMantissa(p.negative, Mantissa(p), p.exp) == p
  {
    var frac := if p.frac.Some? then "." + p.frac.value else "";
    var m := p.whole + frac;
    FindAt(p.whole, frac, {'.'});
    assert m[..|p.whole|] == p.whole;
    if p.frac.Some? {
      assert m[|p.whole| + 1..] == p.frac.value;
    }
  }

  lemma MantissaMarks(p: Parts)
    requires WellFormed(p)
    ensures forall i :: 0 <= i < |Mantissa(p)| ==> Mantissa(p)[i] !in {'e', 'E'}
    ensures forall i :: 0 <= i < |p.whole| ==> p.whole[i] !in {'.'}
  {
  }

  // ---------------------------------------------------------------- what is written

  /** The parts of what `Formatted` writes. */
  function Written(negative: bool, s: Scientific): Parts
    requires Placed(s)
  {
    if Past1e19(s) then InExponentForm(negative, s)
    else if 0 <= s.power <= 1024 then
      Parts(negative, s.coefficient + (if s.coefficient != "0" then Zeros(s.power) else ""), None, None)
    else if s.e < 0 || s.e > 7 then InExponentForm(negative, s)
    else if s.e <= 0 then Parts(negative, "0", Some(Zeros(-s.e) + s.digits), None)
    else if |s.digits| <= s.e then Parts(negative, s.digits + Zeros(s.e - |s.digits|), Some("0"), None)
    else Parts(negative, s.digits[..s.e], Some(s.digits[s.e..]), None)
  }

  function InExponentForm(negative: bool, s: Scientific): Parts
    requires Placed(s)
  {
    Parts(negative, s.digits[..1], Some(if |s.digits| == 1 then "0" else s.digits[1..]),
          Some(Exponent('e', if s.digits == "0" then "0" else IntText(Wrap(s.e - 1)))))
  }

  lemma ExponentFormIsParts(s: Scientific)
    requires Placed(s)
    ensures ExponentForm(s.digits, s.e) == Body(InExponentForm(false, s))
  {
    if s.digits == "0" {
      ZeroForm();
      ExponentFormText("0", "0");
    } else {
      ExponentFormText(s.digits, IntText(Wrap(s.e - 1)));
    }
  }

  lemma ZeroForm()
    ensures "0" + ".0e" + "0" == "0.0e0"
  {
  }

  lemma ExponentFormText(d: string, c: string)
    requires d != ""
    ensures (if |d| == 1 then d + ".0e" + c else d[..1] + "." + d[1..] + "e" + c)
         == Body(Parts(false, d[..1], Some(if |d| == 1 then "0" else d[1..]), Some(Exponent('e', c))))
  {
    Joined(d[..1], if |d| == 1 then "0" else d[1..], c);
    if |d| == 1 {
      assert d[..1] == d;
      OneDigit(d, c);
    }
  }

  lemma Joined(a: string, b: string, c: string)
    ensures a + ("." + b) + (['e'] + c) == a + "." + b + "e" + c
  {
  }

  lemma OneDigit(a: string, c: string)
    ensures a + "." + "0" + "e" + c == a + ".0e" + c
  {
  }

  lemma ExponentTextIsRead(s: Scientific)
    requires Placed(s)
    ensures var t := InExponentForm(false, s).exp.value.text;
      SignedDigits(t) && ExpValue(t) == if s.digits == "0" then 0 else Wrap(s.e - 1)
  {
    IntTextValue(Wrap(s.e - 1));
    assert SignedDigits("0") && Nat("0") == 0;
  }

  lemma ExponentFormIsWell(negative: bool, s: Scientific)
    requires Placed(s)
    ensures WellFormed(InExponentForm(negative, s))
    ensures ExpOf(InExponentForm(negative, s)) == if s.digits == "0" then 0 else Wrap(s.e - 1)
  {
    ExponentTextIsRead(s);
  }

  lemma FormattedIsParts(s: Scientific)
    requires Placed(s)
    ensures Formatted(s) == Body(Written(false, s)) && WellFormed(Written(false, s))
  {
    if Past1e19(s) || (!(0 <= s.power <= 1024) && (s.e < 0 || s.e > 7)) {
      ExponentFormIsParts(s);
      ExponentFormIsWell(false, s);
    } else if !(0 <= s.power <= 1024) {
      FixedIsParts(s);
    }
  }

  lemma FixedIsParts(s: Scientific)
    requires Placed(s) && WrittenFixed(s)
    ensures FixedForm(s.digits, s.e) == Body(Written(false, s)) && WellFormed(Written(false, s))
  {
    assert Zeros(s.e) + s.digits != "";
  }

  // ---------------------------------------------------------------- the value that is kept

  /** The value of digits and e: 0.d1d2... times 10^e. */
  ghost function Magnified(s: Scientific): real
    requires Trimmed(s.digits)
  {
    Times10(Nat(s.digits) as real, s.e - |s.digits|)
  }

  lemma TrailingValue(d: string, n: nat, k: int)
    requires AllDigits(d)
    ensures AllDigits(d + Zeros(n))
    ensures Times10(Nat(d + Zeros(n)) as real, k) == Times10(Nat(d) as real, n + k)
  {
    TrailingZeros(d, n);
    Times10Sum(Nat(d) as real, n, k);
  }

  lemma CoefficientValue(s: Scientific)
    requires Placed(s) && Exact(s)
    ensures AllDigits(s.coefficient)
    ensures Times10(Nat(s.coefficient) as real, s.power) == Magnified(s)
  {
    if s.coefficient == "0" {
      assert Nat("0") == 0;
      Times10Zero(s.power);
      Times10Zero(s.e - |s.digits|);
    } else {
      TrailingValue(s.digits, |s.coefficient| - |s.digits|, s.power);
    }
  }

  lemma ExponentFormDigits(negative: bool, s: Scientific)
    requires Placed(s) && s.digits != "0"
    ensures var p := InExponentForm(negative, s); var n := if |s.digits| == 1 then 1 else 0;
      p.whole + FracText(p) == s.digits + Zeros(n) && |FracText(p)| == |s.digits| - 1 + n
  {
  }

  /** Parts whose digits and power are known have the value those make. */
  lemma ValueFrom(p: Parts, digits: string, power: int)
    requires WellFormed(p) && AllDigits(digits)
    requires p.whole + FracText(p) == digits && ExpOf(p) - |FracText(p)| == power
    ensures PartsValue(p) == Signed(p.negative, Times10(Nat(digits) as real, power))
  {
  }

  /** The value of what is written: each form says its digits and one of the sums. */
  ghost function Told(s: Scientific): real
    requires Placed(s)
  {
    if WrittenAsInteger(s) then Times10(Nat(s.coefficient) as real, s.power)
    else if WrittenFixed(s) then Magnified(s)
    else Times10(Nat(s.digits) as real, Wrap(s.e - 1) + 1 - |s.digits|)
  }

  lemma ExponentFormValue(negative: bool, s: Scientific)
    requires Placed(s) && s.digits != "0"
    ensures WellFormed(InExponentForm(negative, s))
    ensures PartsValue(InExponentForm(negative, s)) == Signed(negative, Times10(Nat(s.digits) as real, Wrap(s.e - 1) + 1 - |s.digits|))
  {
    var n, k := if |s.digits| == 1 then 1 else 0, Wrap(s.e - 1) + 1 - |s.digits|;
    ExponentFormIsWell(negative, s);
    ExponentFormDigits(negative, s);
    TrailingValue(s.digits, n, k - n);
    ValueFrom(InExponentForm(negative, s), s.digits + Zeros(n), k - n);
  }

  lemma IntegerValue(negative: bool, s: Scientific)
    requires Placed(s) && WrittenAsInteger(s)
    ensures WellFormed(Written(negative, s))
    ensures PartsValue(Written(negative, s)) == Signed(negative, Told(s))
  {
    FormattedIsParts(s);
    var p := Written(negative, s);
    if s.coefficient == "0" {
      assert p.whole + FracText(p) == "0" && Nat("0") == 0;
      Times10Zero(s.power);
    } else {
      TrailingValue(s.coefficient, s.power, 0);
      assert p.whole + FracText(p) == s.coefficient + Zeros(s.power);
    }
  }

  lemma FixedDigits(negative: bool, s: Scientific)
    requires Placed(s) && WrittenFixed(s)
    ensures var p := Written(negative, s);
      && p.exp.None?
      && (s.e == 0 ==> p.whole + FracText(p) == Zeros(1) + s.digits && |FracText(p)| == |s.digits|)
      && (0 < s.e && |s.digits| <= s.e ==>
            p.whole + FracText(p) == s.digits + Zeros(s.e - |s.digits| + 1) && |FracText(p)| == 1)
      && (0 < s.e < |s.digits| ==> p.whole + FracText(p) == s.digits && |FracText(p)| == |s.digits| - s.e)
  {
  }

  lemma FixedFrom(p: Parts, s: Scientific)
    requires WellFormed(p) && Placed(s) && 0 <= s.e && p.exp.None?
    requires s.e == 0 ==> p.whole + FracText(p) == Zeros(1) + s.digits && |FracText(p)| == |s.digits|
    requires 0 < s.e && |s.digits| <= s.e ==>
      p.whole + FracText(p) == s.digits + Zeros(s.e - |s.digits| + 1) && |FracText(p)| == 1
    requires 0 < s.e < |s.digits| ==> p.whole + FracText(p) == s.digits && |FracText(p)| == |s.digits| - s.e
    ensures PartsValue(p) == Signed(p.negative, Magnified(s))
  {
    if s.e == 0 {
      LeadingZeros(1, s.digits);
      ValueFrom(p, Zeros(1) + s.digits, -|s.digits|);
    } else if |s.digits| <= s.e {
      TrailingValue(s.digits, s.e - |s.digits| + 1, -1);
      ValueFrom(p, s.digits + Zeros(s.e - |s.digits| + 1), -1);
    } else {
      ValueFrom(p, s.digits, s.e - |s.digits|);
    }
  }

  lemma FixedValue(negative: bool, s: Scientific)
    requires Placed(s) && WrittenFixed(s)
    ensures WellFormed(Written(negative, s))
    ensures PartsValue(Written(negative, s)) == Signed(negative, Magnified(s))
  {
    FormattedIsParts(s);
    SignOnly(negative, s);
    FixedDigits(negative, s);
    FixedFrom(Written(negative, s), s);
  }

  lemma WrittenValue(negative: bool, s: Scientific)
    requires Placed(s)
    ensures WellFormed(Written(negative, s))
    ensures PartsValue(Written(negative, s)) == Signed(negative, Told(s))
  {
    if WrittenAsInteger(s) {
      IntegerValue(negative, s);
    } else if WrittenFixed(s) {
      FixedValue(negative, s);
    } else {
      ExponentFormValue(negative, s);
    }
  }

  // ---------------------------------------------------------------- the results

  /** No digit of the text but zeros. */
  predicate IsZero(text: string)
    requires IsNumber(text)
  {
    var p := Split(text);
    forall i :: 0 <= i < |p.whole + FracText(p)| ==> (p.whole + FracText(p))[i] == '0'
  }

  /** The exponent of the text is one an i64 holds (none counts as 0). */
  predicate ExponentFits(text: string)
    requires IsNumber(text)
  {
    I64_MIN <= ExpOf(Split(text)) <= I64_MAX
  }

  /** The place of the first digit that is not 0: the exponent of the value in scientific notation. */
  function Order(p: Parts): int
    requires WellFormed(p)
  {
    |TrimLeft(p.whole + FracText(p))| - 1 + ExpOf(p) - |FracText(p)|
  }

  /** The value's order of magnitude is one an i64 holds. */
  predicate OrderFits(text: string)
    requires IsNumber(text)
  {
    I64_MIN <= Order(Split(text)) <= I64_MAX
  }

  /** The digits fit in memory with the two copies `number` makes of them: three strings at once
      in 2^64 addresses are each far shorter than this. */
  predicate Held(text: string) {
    var p := Split(text);
    |p.whole + FracText(p)| <= I64_MAX - 1024
  }

  predicate IsKept(text: string)
    requires IsNumber(text)
  {
    IsZero(text) || (ExponentFits(text) && OrderFits(text))
  }

  lemma {:induction false} ZeroDigits(s: string)
    requires AllDigits(s)
    ensures Nat(s) == 0 <==> forall i :: 0 <= i < |s| ==> s[i] == '0'
  {
    if s != "" {
      ZeroDigits(s[..|s| - 1]);
      assert s == s[..|s| - 1] + [s[|s| - 1]];
    }
  }

  /** The parts' value is that of all there is to read. */
  lemma WholeValue(p: Parts)
    requires WellFormed(p)
    ensures Placed(Whole(p)) && Exact(Whole(p))
    ensures PartsValue(p) == Signed(p.negative, Magnified(Whole(p)))
    ensures Whole(p).coefficient == "0" ==> Magnified(Whole(p)) == 0.0
  {
    ReadIsPlaced(p);
    ReadKeepsDigits(p);
    SameNumber(p, Whole(p));
    if Whole(p).coefficient == "0" {
      ZeroIsNothing(Whole(p));
    }
  }

  lemma SameNumber(p: Parts, s: Scientific)
    requires WellFormed(p) && Placed(s) && Exact(s) && AllDigits(s.coefficient)
    requires Nat(s.coefficient) == Nat(p.whole + FracText(p)) && s.power == ExpOf(p) - |FracText(p)|
    ensures PartsValue(p) == Signed(p.negative, Magnified(s))
  {
    CoefficientValue(s);
  }

  lemma ZeroIsNothing(s: Scientific)
    requires Placed(s) && s.coefficient == "0"
    ensures Magnified(s) == 0.0
  {
    assert Nat("0") == 0;
    Times10Zero(s.e - 1);
  }

  lemma ZeroIsRead(text: string)
    requires IsNumber(text)
    ensures Coefficient(Split(text)) == "0" <==> IsZero(text)
  {
    var p := Split(text);
    ReadKeepsDigits(p);
    ZeroDigits(p.whole + FracText(p));
  }

  /** What `number` writes, as parts. */
  function NumberParts(text: string): Parts
    requires IsNumber(text)
  {
    var s := ReadScientific(Split(text));
    ReadIsPlaced(Split(text));
    Written(Split(text).negative && s.coefficient != "0", s)
  }

  lemma FormIsRendered(negative: bool, s: Scientific)
    requires Placed(s)
    ensures WellFormed(Written(negative, s))
    ensures (if negative then "-" else "") + Formatted(s) == Render(Written(negative, s))
  {
    FormattedIsParts(s);
    SignOnly(negative, s);
  }

  lemma NumberIsParts(text: string)
    requires IsNumber(text)
    ensures WellFormed(NumberParts(text)) && IsNumber(Number(text)) && Split(Number(text)) == NumberParts(text)
  {
    ReadIsPlaced(Split(text));
    var s := ReadScientific(Split(text));
    FormIsRendered(Split(text).negative && s.coefficient != "0", s);
    assert Number(text) == Render(NumberParts(text));
    RenderedIsRead(NumberParts(text));
  }

  lemma SignOnly(negative: bool, s: Scientific)
    requires Placed(s)
    ensures Body(Written(negative, s)) == Body(Written(false, s))
    ensures WellFormed(Written(negative, s)) == WellFormed(Written(false, s))
  {
  }

  /** `number` writes text of section 6 of RFC 8259, whatever it is given of it. */
  lemma NumberIsWellFormed(text: string)
    requires IsNumber(text)
    ensures IsNumber(Number(text))
  {
    NumberIsParts(text);
  }

  /** An integer's text: no plus sign, no leading zero, and no sign before zero. */
  predicate PlainInt(t: string) {
    && t != "" && t != "-0"
    && var d := if t[0] == '-' then t[1..] else t;
       d != "" && AllDigits(d) && (d[0] == '0' ==> |d| == 1)
  }

  lemma IntTextIsPlain(i: int)
    ensures PlainInt(IntText(i))
  {
    if i < 0 {
      var t, d := IntText(i), NatText(-i);
      assert t[0] == '-' && t[1..] == d;
      NatTextValue(-i);
      assert Nat("0") == 0;
      assert t == "-0" ==> d == "0";
    }
  }

  /**
   * The shapes, and when each is written: one digit but zero before the point, a small `e` and a
   * plain exponent past 10^19, and where the power is no small count of zeros and the point is not
   * within seven digits; digits alone up to 1024 zeros; else digits on both sides of the point. A
   * fraction ends in no zero but its only one.
   */
  predicate Shaped(s: Scientific, q: Parts) {
    && (q.exp.Some? <==> Past1e19(s) || ((s.power < 0 || s.power > 1024) && (s.e < 0 || s.e > 7)))
    && (q.frac.None? <==> !Past1e19(s) && 0 <= s.power <= 1024)
    && (q.frac.Some? ==> q.frac.value != "" && (q.frac.value == "0" || q.frac.value[|q.frac.value| - 1] != '0'))
    && (q.exp.Some? ==>
          q.exp.value.mark == 'e' && PlainInt(q.exp.value.text) && |q.whole| == 1 && q.whole[0] != '0')
    && (s.digits == "0" ==> q == Parts(false, "0", if 0 <= s.power <= 1024 then None else Some("0"), None))
  }

  lemma WrittenShape(negative: bool, s: Scientific)
    requires Placed(s)
    ensures Shaped(s, Written(negative && s.coefficient != "0", s))
  {
    if Past1e19(s) || ((s.power < 0 || s.power > 1024) && (s.e < 0 || s.e > 7)) {
      ExponentShape(negative, s);
    } else if s.power < 0 || s.power > 1024 {
      FixedShape(negative, s);
    }
  }

  lemma ExponentShape(negative: bool, s: Scientific)
    requires Placed(s) && (Past1e19(s) || ((s.power < 0 || s.power > 1024) && (s.e < 0 || s.e > 7)))
    ensures Shaped(s, Written(negative && s.coefficient != "0", s))
  {
    IntTextIsPlain(Wrap(s.e - 1));
  }

  lemma FixedShape(negative: bool, s: Scientific)
    requires Placed(s) && WrittenFixed(s)
    ensures Shaped(s, Written(negative && s.coefficient != "0", s))
  {
  }

  /** So is every text `number` writes, read again, a sign only before what is not zero. */
  lemma NumberShape(text: string)
    requires IsNumber(text)
    ensures Shaped(ReadScientific(Split(text)), Split(Number(text)))
    ensures Split(Number(text)).negative <==> Split(text).negative && Coefficient(Split(text)) != "0"
  {
    NumberIsParts(text);
    ReadIsPlaced(Split(text));
    var p := Split(text);
    WrittenShape(p.negative, ReadScientific(p));
    SignIsWritten(p.negative && ReadScientific(p).coefficient != "0", ReadScientific(p));
    CoefficientIsRead(p);
  }

  lemma SignIsWritten(negative: bool, s: Scientific)
    requires Placed(s)
    ensures Written(negative, s).negative == negative
  {
  }

  lemma CoefficientIsRead(p: Parts)
    requires WellFormed(p)
    ensures ReadScientific(p).coefficient == Coefficient(p)
  {
  }

  ghost predicate KeepsValue(text: string)
    requires IsNumber(text)
  {
    IsNumber(Number(text)) && ValueOf(Number(text)) == ValueOf(text)
  }

  /** The sum a form says is the one there is. */
  predicate SumIsRight(s: Scientific, t: Scientific) {
    if WrittenAsInteger(s) then s.power == t.power
    else if WrittenFixed(s) then s.e == t.e
    else Wrap(s.e - 1) == t.e - 1
  }

  /** Of the same digits, other than 0, what is written has the value there is exactly then. */
  lemma ToldIsRight(s: Scientific, t: Scientific)
    requires Placed(s) && Placed(t) && Exact(t)
    requires s.digits == t.digits != "0" && s.coefficient == t.coefficient
    ensures Told(s) == Magnified(t) <==> SumIsRight(s, t)
  {
    var d, n := Nat(s.digits) as real, |s.digits|;
    Magnitude(s.digits);
    if WrittenAsInteger(s) {
      CoefficientValue(t);
      TrailingZeros(s.digits, |s.coefficient| - n);
      Times10Order(0.0, d, |s.coefficient| - n);
      Times10Zero(|s.coefficient| - n);
      SamePower(Nat(s.coefficient) as real, s.power, t.power);
    } else if WrittenFixed(s) {
      SamePower(d, s.e - n, t.e - n);
    } else {
      SamePower(d, Wrap(s.e - 1) + 1 - n, t.e - n);
    }
  }

  lemma SamePower(x: real, a: int, b: int)
    requires x > 0.0
    ensures Times10(x, a) == Times10(x, b) <==> a == b
  {
    if a != b {
      DifferentPowers(x, a, b);
    }
  }

  /** Wrapping a sum at each step, or once. */
  lemma WrapSum(a: int, b: int)
    requires -1 <= a <= I64_MAX && 2 * I64_MIN <= b <= I64_MAX
    ensures Wrap(a + Wrap(b)) == Wrap(a + b)
  {
  }

  /** `n` digits, `f` of them past the point, and an exponent `x` read as it is: the form chosen by
      the wrapped sums says the right one exactly when the order of magnitude is an i64. */
  lemma WrappedSums(n: int, f: nat, x: int, one: bool)
    requires 1 <= n <= I64_MAX - 1024 && f <= I64_MAX - 1024 && I64_MIN <= x <= I64_MAX
    ensures var power := Wrap(x - f);
            var e := Wrap(n + power);
            var past := e > 20 || (e == 20 && !one);
            (if !past && 0 <= power <= 1024 then power == x - f
             else if !past && 0 <= e <= 7 then e == n + x - f
             else Wrap(e - 1) == n + x - f - 1)
            <==> I64_MIN <= n + x - f - 1 <= I64_MAX
  {
  }

  /** What is told of some parts is their value. */
  ghost predicate TellsValue(p: Parts)
    requires WellFormed(p) && Placed(ReadScientific(p))
  {
    Signed(p.negative && Coefficient(p) != "0", Told(ReadScientific(p))) == PartsValue(p)
  }

  lemma ZeroIsTold(p: Parts)
    requires WellFormed(p) && Coefficient(p) == "0"
    ensures Placed(ReadScientific(p)) && TellsValue(p)
  {
    ReadIsPlaced(p);
    WholeValue(p);
    assert Nat("0") == 0;
    Times10Zero(ReadScientific(p).power);
    Times10Zero(ReadScientific(p).e - 1);
  }

  lemma DigitsAreTold(p: Parts)
    requires WellFormed(p) && Coefficient(p) != "0" && |p.whole + FracText(p)| <= I64_MAX - 1024
    ensures Placed(ReadScientific(p))
    ensures TellsValue(p) <==> I64_MIN <= ExpOf(p) <= I64_MAX && I64_MIN <= Order(p) <= I64_MAX
  {
    ReadIsPlaced(p);
    WholeValue(p);
    ToldIsRight(ReadScientific(p), Whole(p));
    SumsAreRight(p);
  }

  lemma PartsAreTold(p: Parts)
    requires WellFormed(p) && |p.whole + FracText(p)| <= I64_MAX - 1024
    ensures Placed(ReadScientific(p))
    ensures TellsValue(p) <==> Coefficient(p) == "0" || (I64_MIN <= ExpOf(p) <= I64_MAX && I64_MIN <= Order(p) <= I64_MAX)
  {
    if Coefficient(p) == "0" {
      ZeroIsTold(p);
    } else {
      DigitsAreTold(p);
    }
  }

  /** What `number` writes of a text is what it tells of its parts. */
  lemma KeepsIsTells(text: string)
    requires IsNumber(text)
    ensures IsNumber(Number(text)) && Placed(ReadScientific(Split(text)))
    ensures KeepsValue(text) <==> TellsValue(Split(text))
  {
    var s := ReadScientific(Split(text));
    ReadIsPlaced(Split(text));
    NumberIsParts(text);
    WrittenValue(Split(text).negative && s.coefficient != "0", s);
  }

  /** `number` keeps the exact value exactly when that is zero, or the exponent of the text and the
      order of magnitude of its value are both ones an i64 holds. */
  lemma NumberKeepsValue(text: string)
    requires IsNumber(text) && Held(text)
    ensures IsNumber(Number(text))
    ensures KeepsValue(text) <==> IsKept(text)
  {
    KeepsIsTells(text);
    ZeroIsRead(text);
    PartsAreTold(Split(text));
  }

  lemma SumsAreRight(p: Parts)
    requires WellFormed(p) && Coefficient(p) != "0" && |p.whole + FracText(p)| <= I64_MAX - 1024
    ensures Placed(ReadScientific(p))
    ensures SumIsRight(ReadScientific(p), Whole(p)) <==> I64_MIN <= ExpOf(p) <= I64_MAX && I64_MIN <= Order(p) <= I64_MAX
  {
    ReadIsPlaced(p);
    TrimLeftShorter(p.whole + FracText(p));
    if I64_MIN <= ExpOf(p) <= I64_MAX {
      WrappedSums(|Coefficient(p)|, |FracText(p)|, ExpOf(p), ReadScientific(p).digits == "1");
    }
  }

  lemma {:induction false} TrimLeftShorter(s: string)
    ensures |TrimLeft(s)| <= |s|
  {
    if s != "" {
      TrimLeftShorter(s[1..]);
    }
  }

  lemma {:induction false} DifferentPowers(x: real, a: int, b: int)
    requires x > 0.0 && a != b
    ensures Times10(x, a) != Times10(x, b)
  {
    if a < b {
      LargerPower(x, a, b);
    } else {
      LargerPower(x, b, a);
    }
  }

  lemma {:induction false} LargerPower(x: real, a: int, b: int)
    requires x > 0.0 && a < b
    ensures 0.0 < Times10(x, a) < Times10(x, b)
    decreases b - a
  {
    Times10Order(0.0, x, a);
    Times10Zero(a);
    Times10Step(x, b - 1);
    if a < b - 1 {
      LargerPower(x, a, b - 1);
    }
  }

  /** <digits>e<n>, the first digit not 0. */
  function ToThe(digits: string, n: nat): Parts {
    Parts(false, digits, None, Some(Exponent('e', NatText(n))))
  }

  lemma ToTheIsRead(digits: string, n: nat)
    requires digits != "" && AllDigits(digits) && digits[0] != '0'
    ensures var p := ToThe(digits, n);
            && WellFormed(p) && ExpOf(p) == n && Coefficient(p) == digits && Order(p) == |digits| - 1 + n
            && IsNumber(Render(p)) && Split(Render(p)) == p && !IsZero(Render(p))
  {
    var p := ToThe(digits, n);
    NatTextValue(n);
    assert IsDigit(NatText(n)[0]);
    assert SignedDigits(NatText(n)) && ExpValue(NatText(n)) == n;
    RenderedIsRead(p);
    assert p.whole + FracText(p) == digits;
  }

  /** 1e9223372036854775808 and every greater exponent: it is written as 1, which is another value. */
  lemma ExponentPastI64IsLost(n: nat)
    requires n > I64_MAX
    ensures var text := Render(ToThe("1", n));
            IsNumber(text) && Number(text) == "1" && !KeepsValue(text)
  {
    var p := ToThe("1", n);
    ToTheIsRead("1", n);
    assert ReadScientific(p) == Scientific("1", 0, "1", 1);
    NumberKeepsValue(Render(p));
  }

  /** 15e9223372036854775807: its exponent is an i64, its order of magnitude is not. */
  lemma OrderPastI64IsLost()
    ensures var text := Render(ToThe("15", I64_MAX));
            IsNumber(text) && ExponentFits(text) && Number(text) == "1.5e" + IntText(I64_MIN) && !KeepsValue(text)
  {
    var p := ToThe("15", I64_MAX);
    ToTheIsRead("15", I64_MAX);
    FifteenIsRead(p);
    FifteenIsWritten();
    NumberKeepsValue(Render(p));
  }

  lemma FifteenIsRead(p: Parts)
    requires WellFormed(p) && Coefficient(p) == "15" && p.frac.None? && ExpOf(p) == I64_MAX
    ensures ReadScientific(p) == Scientific("15", I64_MAX, "15", I64_MIN + 1)
  {
  }

  lemma FifteenIsWritten()
    ensures Formatted(Scientific("15", I64_MAX, "15", I64_MIN + 1)) == "1.5e" + IntText(I64_MIN)
  {
    FifteenInForm(IntText(I64_MIN));
  }

  lemma FifteenInForm(c: string)
    ensures "15"[..1] + "." + "15"[1..] + "e" + c == "1.5e" + c
  {
  }

  /** No sum wraps, so that a build with overflow checks does the same, and the value is kept, of
      every text as short as a file and of an exponent no double has. */
  lemma OrdinaryNumbersAreKept(text: string)
    requires IsNumber(text) && |text| < 0x1_0000_0000 && -400 <= ExpOf(Split(text)) <= 400
    ensures ReadScientific(Split(text)) == Whole(Split(text))
    ensures KeepsValue(text)
  {
    ShortTextIsHeld(text);
    OrdinarySums(Split(text));
    KeepsIsTells(text);
    PartsAreTold(Split(text));
  }

  lemma ShortTextIsHeld(text: string)
    requires IsNumber(text)
    ensures var p := Split(text); |p.whole + FracText(p)| <= |text|
  {
    PartsAreShort(Split(text));
  }

  lemma OrdinarySums(p: Parts)
    requires WellFormed(p) && |p.whole + FracText(p)| < 0x1_0000_0000 && -400 <= ExpOf(p) <= 400
    ensures ReadScientific(p) == Whole(p) && I64_MIN <= Order(p) <= I64_MAX
  {
    TrimLeftShorter(p.whole + FracText(p));
  }

  lemma PartsAreShort(p: Parts)
    ensures |p.whole + FracText(p)| <= |Render(p)|
  {
  }

  /** The magnitude of what was read lies between two powers of ten, the lower only for one digit 1. */
  lemma MagnitudeOf(s: Scientific)
    requires Placed(s) && s.digits != "0"
    ensures Times10(1.0, s.e - 1) <= Magnified(s) < Times10(1.0, s.e)
    ensures Magnified(s) == Times10(1.0, s.e - 1) <==> s.digits == "1"
  {
    var n, k := Nat(s.digits) as real, s.e - |s.digits|;
    Magnitude(s.digits);
    TenIsTimes10(|s.digits| - 1);
    TenIsTimes10(|s.digits|);
    Times10Sum(1.0, |s.digits| - 1, k);
    Times10Sum(1.0, |s.digits|, k);
    Times10Order(n, Ten(|s.digits|) as real, k);
    if Ten(|s.digits| - 1) < Nat(s.digits) {
      Times10Order(Ten(|s.digits| - 1) as real, n, k);
    }
    if s.digits == "1" {
      assert s.digits[..0] == "" && Nat("1") == 1;
    }
  }

  ghost function Abs(x: real): real {
    if x < 0.0 then -x else x
  }

  ghost function Magnitude10(text: string): real
    requires IsNumber(text)
  {
    Abs(ValueOf(text))
  }

  lemma SizeIsWhole(p: Parts)
    requires WellFormed(p)
    ensures Placed(Whole(p)) && Exact(Whole(p))
    ensures Abs(PartsValue(p)) == Magnified(Whole(p))
    ensures Coefficient(p) == "0" ==> Abs(PartsValue(p)) == 0.0
  {
    ReadIsPlaced(p);
    WholeValue(p);
    MagnifiedIsMagnitude(Whole(p));
  }

  /** The order of a value that is not zero is that of the greatest power of ten not past it. */
  lemma OrderIsMagnitude(p: Parts)
    requires WellFormed(p) && Coefficient(p) != "0"
    ensures Times10(1.0, Order(p)) <= Abs(PartsValue(p)) < Times10(1.0, Order(p) + 1)
  {
    SizeIsWhole(p);
    assert Whole(p).e == Order(p) + 1;
    MagnitudeOf(Whole(p));
  }

  lemma MagnifiedIsMagnitude(s: Scientific)
    requires Placed(s)
    ensures Magnified(s) >= 0.0
  {
    var k := s.e - |s.digits|;
    Times10Zero(k);
    if Nat(s.digits) > 0 {
      Times10Order(0.0, Nat(s.digits) as real, k);
    }
  }

  /** The place of the point in the text's digits, counted from the first that is not 0. */
  function Point(p: Parts): int {
    |Coefficient(p)| - |FracText(p)|
  }

  /** The digits before the exponent are by themselves past 10^19. */
  predicate MantissaPast(p: Parts) {
    Point(p) > 20 || (Point(p) == 20 && TrimRight(Coefficient(p)) != "1")
  }

  /** Where the digit test can be trusted: the sum it tests is an i64; or, the exponent being read
      as 0, the digits alone lie on the side of 10^19 the exponent puts the value on. */
  predicate PastIsTrusted(p: Parts)
    requires WellFormed(p)
  {
    if I64_MIN <= ExpOf(p) <= I64_MAX then I64_MIN <= Order(p) + 1 <= I64_MAX else MantissaPast(p) <==> ExpOf(p) > 0
  }

  /** The digit test `past_1e19` is exactly |value| > 10^19 there and for zero, and nowhere else. */
  lemma PastIsPast(text: string)
    requires IsNumber(text) && Held(text)
    ensures (Past1e19(ReadScientific(Split(text))) <==> Magnitude10(text) > Times10(1.0, 19))
            <==> IsZero(text) || PastIsTrusted(Split(text))
  {
    ZeroIsRead(text);
    SizeIsWhole(Split(text));
    PastBySums(Split(text));
  }

  lemma PastBySums(p: Parts)
    requires WellFormed(p) && |p.whole + FracText(p)| <= I64_MAX - 1024
    ensures Placed(Whole(p))
    ensures (Past1e19(ReadScientific(p)) <==> Magnified(Whole(p)) > Times10(1.0, 19))
            <==> Coefficient(p) == "0" || PastIsTrusted(p)
  {
    ReadIsPlaced(p);
    WholeValue(p);
    PastIsMagnified(Whole(p));
    if Coefficient(p) != "0" {
      SumsOfDigits(p);
      PastBySum(p);
    }
  }

  /** The sum of digits read, and what it should be. */
  lemma SumsOfDigits(p: Parts)
    requires WellFormed(p) && Coefficient(p) != "0" && |p.whole + FracText(p)| <= I64_MAX - 1024
    ensures 1 <= |Coefficient(p)| <= I64_MAX - 1024 && |FracText(p)| <= I64_MAX - 1024
    ensures Whole(p).e == Order(p) + 1 == Point(p) + ExpOf(p)
    ensures ReadScientific(p).e == if I64_MIN <= ExpOf(p) <= I64_MAX then Wrap(Whole(p).e) else Point(p)
  {
    TrimLeftShorter(p.whole + FracText(p));
    if I64_MIN <= ExpOf(p) <= I64_MAX {
      WrapSum(|Coefficient(p)|, ExpOf(p) - |FracText(p)|);
    }
  }

  lemma PastBySum(p: Parts)
    requires WellFormed(p) && Coefficient(p) != "0" && |p.whole + FracText(p)| <= I64_MAX - 1024
    ensures (Past1e19(ReadScientific(p)) <==> Past1e19(Whole(p))) <==> PastIsTrusted(p)
  {
    ReadIsPlaced(p);
    SumsOfDigits(p);
  }

  lemma PastIsMagnified(s: Scientific)
    requires Placed(s)
    ensures s.digits != "0" ==> (Past1e19(s) <==> Magnified(s) > Times10(1.0, 19))
    ensures Times10(1.0, 19) > 0.0
  {
    PowerOrder(18, 19);
    if s.digits != "0" {
      MagnitudeOf(s);
      if s.e > 20 {
        PowerOrder(19, s.e - 1);
      } else if s.e < 19 {
        PowerOrder(s.e, 19);
      }
    }
  }

  /** With a negative power, the fixed form is used exactly for zero and for magnitudes in
      [0.1, 10^7), but of a text whose exponent is read as 0 and whose digits alone are moderate. */
  lemma FixedIsModerate(text: string)
    requires IsNumber(text) && Held(text) && ExpRead(Split(text)) - |FracText(Split(text))| < 0
    ensures (WrittenFixed(ReadScientific(Split(text)))
             <==> Magnitude10(text) == 0.0 || Times10(1.0, -1) <= Magnitude10(text) < Times10(1.0, 7))
            <==> IsZero(text) || ExponentFits(text) || !(0 <= Point(Split(text)) <= 7)
  {
    var p := Split(text);
    ReadIsPlaced(p);
    ZeroIsRead(text);
    SizeIsWhole(p);
    FixedIsMagnified(Whole(p));
    FixedBySums(p);
  }

  lemma FixedBySums(p: Parts)
    requires WellFormed(p) && |p.whole + FracText(p)| <= I64_MAX - 1024 && ExpRead(p) - |FracText(p)| < 0
    requires Placed(Whole(p)) && Placed(ReadScientific(p)) && ReadScientific(p).digits == Whole(p).digits
    ensures Coefficient(p) == "0" ==> WrittenFixed(ReadScientific(p))
    ensures Coefficient(p) != "0" ==>
              ((WrittenFixed(ReadScientific(p)) <==> 0 <= Whole(p).e <= 7)
               <==> I64_MIN <= ExpOf(p) <= I64_MAX || !(0 <= Point(p) <= 7))
  {
    if Coefficient(p) != "0" {
      SumsOfDigits(p);
    } else {
      TrimLeftShorter(p.whole + FracText(p));
    }
  }

  /** 1.5e<n>. */
  function HalfMore(n: nat): Parts {
    Parts(false, "1", Some("5"), Some(Exponent('e', NatText(n))))
  }

  lemma HalfMoreIsRead(n: nat)
    requires n > I64_MAX
    ensures var p := HalfMore(n);
            && WellFormed(p) && ExpOf(p) == n && Coefficient(p) == "15"
            && ReadScientific(p) == Scientific("15", -1, "15", 1)
  {
    NatTextValue(n);
    assert IsDigit(NatText(n)[0]);
    assert SignedDigits(NatText(n)) && ExpValue(NatText(n)) == n;
  }

  /** 1.5e9223372036854775808 and every greater exponent: far past 10^19, tested not to be, and
      written as 1.5 in the fixed form. */
  lemma MisreadIsModerate(n: nat)
    requires n > I64_MAX
    ensures var text := Render(HalfMore(n));
            && IsNumber(text) && Number(text) == "1.5" && Magnitude10(text) > Times10(1.0, 19)
            && !Past1e19(ReadScientific(Split(text))) && WrittenFixed(ReadScientific(Split(text)))
  {
    HalfMoreIsRead(n);
    RenderedIsRead(HalfMore(n));
    HalfMoreIsBig(n);
    HalfMoreIsWritten();
  }

  lemma HalfMoreIsBig(n: nat)
    requires n > I64_MAX
    ensures WellFormed(HalfMore(n)) && Abs(PartsValue(HalfMore(n))) > Times10(1.0, 19)
  {
    var p := HalfMore(n);
    HalfMoreIsRead(n);
    SizeIsWhole(p);
    assert Whole(p).e == 2 + n - 1;
    PastIsMagnified(Whole(p));
  }

  lemma HalfMoreIsWritten()
    ensures var s := Scientific("15", -1, "15", 1); !Past1e19(s) && WrittenFixed(s) && Formatted(s) == "1.5"
  {
    assert "15"[..1] == "1" && "15"[1..] == "5";
  }

  lemma FixedIsMagnified(s: Scientific)
    requires Placed(s)
    ensures s.digits != "0" ==> (0 <= s.e <= 7 <==> Times10(1.0, -1) <= Magnified(s) < Times10(1.0, 7))
    ensures s.digits != "0" ==> Magnified(s) > 0.0 && (Past1e19(s) ==> s.e > 7)
  {
    if s.digits != "0" {
      MagnitudeOf(s);
      PowerEdge(s.e - 1, s.e);
      if s.e > 7 {
        PowerEdge(7, s.e - 1);
      } else {
        PowerEdge(s.e, 7);
        if s.e < 0 {
          PowerEdge(s.e, -1);
        } else {
          PowerEdge(-1, s.e - 1);
        }
      }
    }
  }

  lemma PowerEdge(a: int, b: int)
    requires a <= b
    ensures 0.0 < Times10(1.0, a) <= Times10(1.0, b)
  {
    if a < b {
      PowerOrder(a, b);
    } else {
      PowerOrder(a, a + 1);
    }
  }

  /** `number` itself, its zeros pushed one by one. */
  method Format(text: string) returns (out: string)
    requires IsNumber(text)
    ensures out == Number(text)
    ensures IsNumber(out) && (Held(text) ==> (KeepsValue(text) <==> IsKept(text)))
  {
    NumberIsWellFormed(text);
    if Held(text) {
      NumberKeepsValue(text);
    }
    ReadIsPlaced(Split(text));
    var s := ReadScientific(Split(text));
    var formatted := FormatDigits(s);
    out := (if Split(text).negative && s.coefficient != "0" then "-" else "") + formatted;
  }

  method FormatDigits(s: Scientific) returns (formatted: string)
    requires Placed(s)
    ensures formatted == Formatted(s)
  {
    if Past1e19(s) {
      formatted := ExponentForm(s.digits, s.e);
    } else if 0 <= s.power <= 1024 {
      formatted := s.coefficient;
      if s.coefficient != "0" {
        var i := 0;
        while i < s.power
          invariant 0 <= i <= s.power
          invariant formatted == s.coefficient + Zeros(i)
        {
          formatted := formatted + "0";
          assert Zeros(i + 1) == Zeros(i) + "0";
          i := i + 1;
        }
      }
    } else if s.e < 0 || s.e > 7 {
      formatted := ExponentForm(s.digits, s.e);
    } else {
      formatted := FixedForm(s.digits, s.e);
    }
  }
}
