/** Python's float `repr` as `lfm2d/src/chat.rs` writes it, and the number
    grammar of section 6 of RFC 8259, which reads every layout back to exactly
    the digits it was given. */
module PyFloat {
  import opened Wrappers
  import opened Numerals
  import Text

  /** A float as the writer gets it: sign, shortest decimal digits and the
      power of ten they are scaled by. */
  datatype Decimal = Decimal(negative: bool, mantissa: nat, exponent: int)

  /** A decimal's one form: no trailing zero in the mantissa, zero at exponent 0. */
  predicate Normal(d: Decimal) {
    if d.mantissa == 0 then d.exponent == 0 else d.mantissa % 10 != 0
  }

  type NormalDecimal = d: Decimal | Normal(d) witness Decimal(false, 0, 0)

  function IntText(i: int): string {
    if i < 0 then "-" + Digits(-i) else Digits(i)
  }

  /** Python's two-digit exponent field, `{:02}`. */
  function ExponentDigits(n: nat): (s: string)
    ensures AllDigits(s) && s != ""
  {
    if n < 10 then "0" + Digits(n) else Digits(n)
  }

  /** What shortest-digit generation yields: no leading zero except zero's own
      single digit. */
  predicate ShortestDigits(digits: string, exponent: int) {
    digits != "" && AllDigits(digits) && (digits[0] == '0' ==> digits == "0" && exponent == 0)
  }

  /** Python's `float.__repr__` of `d.ddd * 10^exponent`. */
  function FloatRepr(negative: bool, digits: string, exponent: int): string
    requires ShortestDigits(digits, exponent)
  {
    WithSign(negative, Magnitude(digits, exponent))
  }

  function WithSign(negative: bool, t: string): string {
    if negative then "-" + t else t
  }

  function FixedText(whole: string, fraction: string): string {
    whole + ("." + fraction)
  }

  /** The exponent part: `e`, a sign and at least two digits. */
  function ExponentPart(exponent: int): string {
    if exponent < 0 then "e-" + ExponentDigits(-exponent) else "e+" + ExponentDigits(exponent)
  }

  function ScientificText(digits: string, exponent: int): string
    requires digits != ""
  {
    if |digits| > 1 then FixedText(digits[..1], digits[1..]) + ExponentPart(exponent)
    else digits + ExponentPart(exponent)
  }

  function Magnitude(digits: string, exponent: int): string
    requires ShortestDigits(digits, exponent)
  {
    var decpt := exponent + 1;
    var n := |digits|;
    if -4 < decpt <= 16 then
      if decpt <= 0 then FixedText("0", Zeros(-decpt) + digits)
      else if decpt >= n then FixedText(digits + Zeros(decpt - n), "0")
      else FixedText(digits[..decpt], digits[decpt..])
    else ScientificText(digits, exponent)
  }

  /** A number token: an integer, or `mantissa * 10^exponent`. */
  datatype Number = Whole(i: int) | Scaled(negative: bool, mantissa: nat, exponent: int)

  function Signed(negative: bool, n: nat): int {
    if negative then 0 - n else n
  }

  /** The number grammar of section 6: optional minus, an int without leading
      zeros, optional fraction, optional exponent. */
  function ReadNumber(t: string): Option<Number> {
    if t != "" && t[0] == '-' then ReadUnsigned(true, t[1..]) else ReadUnsigned(false, t)
  }

  function ReadUnsigned(negative: bool, r: string): Option<Number> {
    var n := DigitSpan(r);
    if n == 0 || (n > 1 && r[0] == '0') then None
    else ReadFraction(negative, r[..n], r[n..])
  }

  function ReadFraction(negative: bool, whole: string, r: string): Option<Number>
    requires AllDigits(whole)
  {
    if r == "" then Some(Whole(Signed(negative, Val(whole))))
    else if r[0] == '.' then
      var n := DigitSpan(r[1..]);
      if n == 0 then None else ReadExponent(negative, whole + r[1..][..n], n, r[1..][n..])
    else ReadExponent(negative, whole, 0, r)
  }

  function ReadExponent(negative: bool, digits: string, scale: nat, r: string): Option<Number>
    requires AllDigits(digits)
  {
    if r == "" then Some(Scaled(negative, Val(digits), 0 - scale))
    else if r[0] != 'e' && r[0] != 'E' then None
    else
      var signed := |r| > 1 && (r[1] == '+' || r[1] == '-');
      var x := if signed then r[2..] else r[1..];
      if x == "" || DigitSpan(x) != |x| then None
      else
        assert x[..|x|] == x;
        Some(Scaled(negative, Val(digits), Signed(signed && r[1] == '-', Val(x)) - scale))
  }

  /** The token denotes exactly `digits * 10^(exponent + 1 - |digits|)`. */
  predicate Denotes(t: Option<Number>, negative: bool, digits: string, exponent: int)
    requires AllDigits(digits)
  {
    t.Some? && t.value.Scaled? && t.value.negative == negative
    && t.value.exponent <= exponent + 1 - |digits|
    && t.value.mantissa == Scale(Val(digits), exponent + 1 - |digits| - t.value.exponent)
  }

  lemma {:induction false} ReadSigned(negative: bool, t: string)
    requires t != "" && t[0] != '-'
    ensures ReadNumber(WithSign(negative, t)) == ReadUnsigned(negative, t)
  {
    assert ("-" + t)[1..] == t;
  }

  lemma {:induction false} UnsignedReads(negative: bool, whole: string, tail: string)
    requires AllDigits(whole) && whole != "" && (|whole| > 1 ==> whole[0] != '0')
    requires tail == "" || !IsDigit(tail[0])
    ensures ReadNumber(WithSign(negative, whole + tail)) == ReadFraction(negative, whole, tail)
  {
    DigitSpanIs(whole, tail);
    assert (whole + tail)[0] == whole[0];
    ReadSigned(negative, whole + tail);
  }

  lemma {:induction false} FractionReads(negative: bool, whole: string, fraction: string, tail: string)
    requires AllDigits(whole) && AllDigits(fraction) && fraction != ""
    requires tail == "" || !IsDigit(tail[0])
    ensures AllDigits(whole + fraction)
    ensures ReadFraction(negative, whole, "." + (fraction + tail))
         == ReadExponent(negative, whole + fraction, |fraction|, tail)
  {
    DigitSpanIs(fraction, tail);
    assert ("." + (fraction + tail))[1..] == fraction + tail;
  }

  /** A positional text, whatever follows its digits. */
  lemma {:induction false} FixedReads(
      negative: bool, whole: string, fraction: string, all: string, tail: string, t: string)
    requires AllDigits(whole) && AllDigits(fraction) && whole != "" && fraction != ""
    requires (|whole| > 1 ==> whole[0] != '0') && all == whole + fraction
    requires (tail == "" || !IsDigit(tail[0])) && t == FixedText(whole, fraction) + tail
    ensures AllDigits(all)
    ensures ReadNumber(WithSign(negative, t)) == ReadExponent(negative, all, |fraction|, tail)
  {
    FractionReads(negative, whole, fraction, tail);
    UnsignedReads(negative, whole, "." + (fraction + tail));
    Text.Assoc(whole, "." + fraction, tail);
    Text.Assoc(".", fraction, tail);
  }

  lemma {:induction false} FixedPoint(negative: bool, whole: string, fraction: string, all: string)
    requires AllDigits(whole) && AllDigits(fraction) && whole != "" && fraction != ""
    requires (|whole| > 1 ==> whole[0] != '0') && all == whole + fraction
    ensures AllDigits(all)
    ensures ReadNumber(WithSign(negative, FixedText(whole, fraction)))
         == Some(Scaled(negative, Val(all), 0 - |fraction|))
  {
    assert FixedText(whole, fraction) + "" == FixedText(whole, fraction);
    FixedReads(negative, whole, fraction, all, "", FixedText(whole, fraction));
  }

  lemma {:induction false} ExponentDigitsRead(
      negative: bool, digits: string, scale: nat, below: bool, x: string, r: string)
    requires AllDigits(digits) && AllDigits(x) && x != ""
    requires r == (if below then "e-" else "e+") + x
    ensures ReadExponent(negative, digits, scale, r)
      == Some(Scaled(negative, Val(digits), Signed(below, Val(x)) - scale))
  {
    assert r[2..] == x && x + "" == x;
    DigitSpanIs(x, "");
  }

  lemma {:induction false} ExponentReads(negative: bool, digits: string, scale: nat, exponent: int, r: string)
    requires AllDigits(digits) && r == ExponentPart(exponent)
    ensures ReadExponent(negative, digits, scale, r) == Some(Scaled(negative, Val(digits), exponent - scale))
  {
    var n := if exponent < 0 then -exponent else exponent;
    ExponentVal(n);
    ExponentDigitsRead(negative, digits, scale, exponent < 0, ExponentDigits(n), r);
  }

  lemma {:induction false} ScientificOne(negative: bool, digits: string, exponent: int, t: string)
    requires AllDigits(digits) && |digits| == 1 && t == digits + ExponentPart(exponent)
    ensures Denotes(ReadNumber(WithSign(negative, t)), negative, digits, exponent)
  {
    ExponentReads(negative, digits, 0, exponent, ExponentPart(exponent));
    UnsignedReads(negative, digits, ExponentPart(exponent));
    var r := ReadFraction(negative, digits, ExponentPart(exponent));
    assert r == ReadExponent(negative, digits, 0, ExponentPart(exponent));
  }

  lemma {:induction false} ScientificMany(
      negative: bool, digits: string, whole: string, fraction: string, exponent: int, t: string)
    requires AllDigits(digits) && digits == whole + fraction && |whole| == 1 && fraction != ""
    requires t == FixedText(whole, fraction) + ExponentPart(exponent)
    ensures Denotes(ReadNumber(WithSign(negative, t)), negative, digits, exponent)
  {
    var tail := ExponentPart(exponent);
    assert forall i :: 0 <= i < |fraction| ==> fraction[i] == digits[i + 1];
    assert whole[0] == digits[0];
    ExponentReads(negative, digits, |fraction|, exponent, tail);
    FixedReads(negative, whole, fraction, digits, tail, t);
  }

  lemma {:induction false} ExponentVal(n: nat)
    ensures Val(ExponentDigits(n)) == n
  {
    ValDigits(n);
    if n < 10 {
      assert Zeros(1) == "0";
      ValLeadingZeros(1, Digits(n));
    }
  }

  lemma {:induction false} LeadingZeros(negative: bool, digits: string, exponent: int)
    requires ShortestDigits(digits, exponent) && -4 <= exponent < 0
    ensures Denotes(ReadNumber(FloatRepr(negative, digits, exponent)), negative, digits, exponent)
  {
    var zeros := Zeros(-1 - exponent);
    ValLeadingZeros(|zeros|, digits);
    ValLeadingZeros(1, zeros + digits);
    assert Zeros(1) == "0";
    FixedPoint(negative, "0", zeros + digits, "0" + (zeros + digits));
  }

  lemma {:induction false} TrailingZeros(negative: bool, digits: string, exponent: int, whole: string, all: string)
    requires ShortestDigits(digits, exponent) && |digits| - 1 <= exponent < 16
    requires whole == digits + Zeros(exponent + 1 - |digits|) && all == whole + "0"
    ensures Denotes(ReadNumber(WithSign(negative, FixedText(whole, "0"))), negative, digits, exponent)
  {
    hide ReadNumber, WithSign, FixedText;
    var n := exponent + 1 - |digits|;
    assert AllDigits(all) && Val(all) == Scale(Val(digits), n + 1) by {
      ZerosSnoc(n);
      Text.Assoc(digits, Zeros(n), "0");
      ValTrailingZeros(digits, n + 1);
    }
    assert whole[0] == digits[0] && AllDigits(whole) && (|whole| > 1 ==> whole[0] != '0');
    FixedPoint(negative, whole, "0", all);
  }

  lemma {:induction false} IntegralDenotes(negative: bool, digits: string, exponent: int)
    requires ShortestDigits(digits, exponent) && |digits| - 1 <= exponent < 16
    ensures Denotes(ReadNumber(FloatRepr(negative, digits, exponent)), negative, digits, exponent)
  {
    hide ReadNumber, Denotes, WithSign, FixedText, Zeros;
    var whole := digits + Zeros(exponent + 1 - |digits|);
    TrailingZeros(negative, digits, exponent, whole, whole + "0");
  }

  lemma {:induction false} ScientificDenotes(negative: bool, digits: string, exponent: int)
    requires ShortestDigits(digits, exponent) && (exponent < -4 || exponent >= 16)
    ensures Denotes(ReadNumber(FloatRepr(negative, digits, exponent)), negative, digits, exponent)
  {
    hide ReadNumber, Denotes, WithSign, FixedText, ExponentPart;
    var t := Magnitude(digits, exponent);
    if |digits| == 1 {
      ScientificOne(negative, digits, exponent, t);
    } else {
      assert digits == digits[..1] + digits[1..];
      ScientificMany(negative, digits, digits[..1], digits[1..], exponent, t);
    }
  }

  lemma {:induction false} SplitDigits(negative: bool, digits: string, exponent: int)
    requires ShortestDigits(digits, exponent) && 0 <= exponent < |digits| - 1 && exponent < 16
    ensures Denotes(ReadNumber(FloatRepr(negative, digits, exponent)), negative, digits, exponent)
  {
    var whole, fraction := digits[..exponent + 1], digits[exponent + 1..];
    assert digits == whole + fraction;
    FixedPoint(negative, whole, fraction, digits);
  }

  /** Every layout of the float writer is a number of section 6 that denotes
      exactly the digits it was given, and is never an integer token. */
  lemma {:induction false} FloatDenotes(negative: bool, digits: string, exponent: int)
    requires ShortestDigits(digits, exponent)
    ensures Denotes(ReadNumber(FloatRepr(negative, digits, exponent)), negative, digits, exponent)
  {
    hide ReadNumber, Denotes, FloatRepr;
    if -4 <= exponent < 0 {
      LeadingZeros(negative, digits, exponent);
    } else if |digits| - 1 <= exponent < 16 {
      IntegralDenotes(negative, digits, exponent);
    } else if 0 <= exponent < 16 {
      SplitDigits(negative, digits, exponent);
    } else {
      ScientificDenotes(negative, digits, exponent);
    }
  }

  /** The float writer always writes a point or an exponent. */
  lemma {:induction false} FloatLooksFloat(negative: bool, digits: string, exponent: int)
    requires ShortestDigits(digits, exponent)
    ensures '.' in FloatRepr(negative, digits, exponent) || 'e' in FloatRepr(negative, digits, exponent)
  {
    var m := Magnitude(digits, exponent);
    if -4 <= exponent < 0 {
      assert m[1] == '.';
    } else if |digits| - 1 <= exponent < 16 {
      assert m[exponent + 1] == '.';
    } else if 0 <= exponent < 16 {
      assert m[exponent + 1] == '.';
    } else {
      assert m[if |digits| > 1 then |digits| + 1 else 1] == 'e';
    }
    assert forall c :: c in m ==> c in FloatRepr(negative, digits, exponent);
  }

  /** An integer's text is an integer token. */
  lemma {:induction false} IntDenotes(i: int)
    ensures ReadNumber(IntText(i)) == Some(Whole(i))
  {
    var d := Digits(if i < 0 then -i else i);
    ValDigits(if i < 0 then -i else i);
    assert d + "" == d;
    DigitSpanIs(d, "");
    assert d[|d|..] == "";
    if |d| > 1 {
      assert d[0] != '0';
    }
    if i < 0 {
      assert IntText(i)[1..] == d;
    }
  }

  function Normalise(negative: bool, mantissa: nat, exponent: int): (d: NormalDecimal)
    decreases mantissa
  {
    if mantissa == 0 then Decimal(negative, 0, 0)
    else if mantissa % 10 == 0 then Normalise(negative, mantissa / 10, exponent + 1)
    else Decimal(negative, mantissa, exponent)
  }

  /** Dropping one trailing zero. */
  lemma {:induction false} NormaliseStep(negative: bool, smaller: nat, exponent: int, m: nat)
    requires m == 10 * smaller && smaller > 0
    ensures Normalise(negative, m, exponent) == Normalise(negative, smaller, exponent + 1)
  {
    assert m % 10 == 0 && m / 10 == smaller;
  }

  lemma {:induction false} NormaliseScaled(d: NormalDecimal, zeros: nat, m: nat)
    requires m == Scale(d.mantissa, zeros)
    ensures Normalise(d.negative, m, d.exponent - zeros) == d
  {
    ScaleZero(d.mantissa, zeros);
    if zeros > 0 && d.mantissa > 0 {
      var smaller := Scale(d.mantissa, zeros - 1);
      ScaleZero(d.mantissa, zeros - 1);
      NormaliseScaled(d, zeros - 1, smaller);
      NormaliseStep(d.negative, smaller, d.exponent - zeros, m);
    }
  }

  lemma {:induction false} ScaleZero(m: nat, zeros: nat)
    ensures Scale(m, zeros) == 0 <==> m == 0
  {
    if zeros > 0 {
      ScaleZero(m, zeros - 1);
    }
  }

  function FloatText(d: NormalDecimal): string
  {
    ValDigits(d.mantissa);
    FloatRepr(d.negative, Digits(d.mantissa), d.exponent + |Digits(d.mantissa)| - 1)
  }
}
