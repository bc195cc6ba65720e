/** The bounded decimal numerals that prices and multipliers are written in, and their exact values. */
module Decimals {
  import opened Httpx
  import opened Strings

  datatype Exponent = NoExponent | Exponent(letter: char, sign: string, digits: string)

  /** An absent fraction is empty. */
  datatype Decimal = Decimal(negative: bool, whole: string, fraction: string, exponent: Exponent)

  // ---------- the grammar ----------

  predicate WellFormed(d: Decimal) {
    && 1 <= |d.whole| <= 32 && AllDigits(d.whole)
    && |d.fraction| <= 24 && AllDigits(d.fraction)
    && (d.exponent.Exponent? ==>
          && d.exponent.letter in {'e', 'E'} && d.exponent.sign in {"", "+", "-"}
          && 1 <= |d.exponent.digits| <= 2 && AllDigits(d.exponent.digits))
  }

  function ExponentText(x: Exponent): string {
    if x.NoExponent? then "" else [x.letter] + (x.sign + x.digits)
  }

  function FractionText(fraction: string): string {
    if fraction == "" then "" else "." + fraction
  }

  /** A text matches the pattern of decimals exactly when it is the text of a well-formed one. */
  function Text(d: Decimal): string {
    (if d.negative then "-" else "") + (d.whole + (FractionText(d.fraction) + ExponentText(d.exponent)))
  }

  // ---------- reading ----------

  function DigitRun(s: string): (n: nat)
    ensures n <= |s| && AllDigits(s[..n]) && (n < |s| ==> !IsDigit(s[n]))
  {
    if s == "" || !IsDigit(s[0]) then 0
    else
      var n := DigitRun(s[1..]);
      assert forall i :: 0 <= i < n ==> s[1..][..n][i] == s[i + 1];
      n + 1
  }

  function ParseExponent(s: string): (r: Option<Exponent>)
    ensures r.Some? ==> ExponentText(r.value) == s
  {
    if s == "" then Some(NoExponent)
    else if s[0] !in {'e', 'E'} then None
    else
      var signed := |s| > 1 && s[1] in {'+', '-'};
      var digits := if signed then s[2..] else s[1..];
      if 1 <= |digits| <= 2 && AllDigits(digits)
      then Some(Exponent(s[0], if signed then [s[1]] else "", digits)) else None
  }

  /** The fraction at the front of a text, and what follows it. */
  function ParseFraction(s: string): (r: Option<(string, string)>)
    ensures r.Some? ==> && s == FractionText(r.value.0) + r.value.1
                        && |r.value.0| <= 24 && AllDigits(r.value.0)
  {
    if s == "" || s[0] != '.' then Some(("", s))
    else
      var n := DigitRun(s[1..]);
      if !(1 <= n <= 24) then None
      else
        assert s[1..] == s[1..][..n] + s[1..][n..];
        Some((s[1..][..n], s[1..][n..]))
  }

  function ParseUnsigned(negative: bool, s: string): (r: Option<Decimal>)
    ensures r.Some? ==> WellFormed(r.value) && r.value.negative == negative
    ensures r.Some? ==> s == r.value.whole + (FractionText(r.value.fraction) + ExponentText(r.value.exponent))
  {
    var n := DigitRun(s);
    assert s == s[..n] + s[n..];
    match ParseFraction(s[n..])
    case None => None
    case Some((fraction, tail)) =>
      match ParseExponent(tail)
      case None => None
      case Some(x) => if 1 <= n <= 32 then Some(Decimal(negative, s[..n], fraction, x)) else None
  }

  function ParseDecimal(s: string): (r: Option<Decimal>)
    ensures r.Some? ==> WellFormed(r.value) && Text(r.value) == s
  {
    if s != "" && s[0] == '-' then
      assert s == "-" + s[1..];
      ParseUnsigned(true, s[1..])
    else
      assert "" + s == s;
      ParseUnsigned(false, s)
  }

  lemma {:induction false} DigitRunOf(w: string, rest: string)
    requires AllDigits(w) && (rest != "" ==> !IsDigit(rest[0]))
    ensures DigitRun(w + rest) == |w| && (w + rest)[..|w|] == w && (w + rest)[|w|..] == rest
  {
    if w == "" {
      assert w + rest == rest;
    } else {
      assert (w + rest)[1..] == w[1..] + rest;
      DigitRunOf(w[1..], rest);
    }
  }

  lemma {:induction false} ExponentRead(x: Exponent)
    requires WellFormed(Decimal(false, "0", "", x))
    ensures ParseExponent(ExponentText(x)) == Some(x)
    ensures ExponentText(x) != "" ==> ExponentText(x)[0] in {'e', 'E'}
  {
    if x.Exponent? {
      var s := ExponentText(x);
      if x.sign == "" {
        assert s[1] == x.digits[0];
        assert s[1..] == x.digits;
      } else {
        assert s[1] == x.sign[0] && s[2..] == x.digits && [s[1]] == x.sign;
      }
    }
  }

  lemma {:induction false} FractionRead(fraction: string, tail: string)
    requires |fraction| <= 24 && AllDigits(fraction) && (tail != "" ==> tail[0] in {'e', 'E'})
    ensures ParseFraction(FractionText(fraction) + tail) == Some((fraction, tail))
  {
    var s := FractionText(fraction) + tail;
    if fraction == "" {
      assert s == tail;
    } else {
      assert s[1..] == fraction + tail;
      DigitRunOf(fraction, tail);
    }
  }

  lemma {:induction false} UnsignedRead(d: Decimal)
    requires WellFormed(d)
    ensures ParseUnsigned(d.negative, d.whole + (FractionText(d.fraction) + ExponentText(d.exponent))) == Some(d)
  {
    ExponentRead(d.exponent);
    FractionRead(d.fraction, ExponentText(d.exponent));
    DigitRunOf(d.whole, FractionText(d.fraction) + ExponentText(d.exponent));
  }

  lemma {:induction false} TextRead(d: Decimal)
    requires WellFormed(d)
    ensures ParseDecimal(Text(d)) == Some(d)
  {
    var body := d.whole + (FractionText(d.fraction) + ExponentText(d.exponent));
    UnsignedRead(d);
    if d.negative {
      assert Text(d) == "-" + body;
      assert Text(d)[1..] == body;
    } else {
      assert Text(d) == body;
      assert body[0] == d.whole[0];
    }
  }

  /** Reading accepts exactly the texts of well-formed decimals, each with the one decimal it stands for. */
  lemma {:induction false} ParseDecimalIff(s: string, d: Decimal)
    ensures ParseDecimal(s) == Some(d) <==> WellFormed(d) && Text(d) == s
  {
    if WellFormed(d) && Text(d) == s { TextRead(d); }
  }

  ghost predicate IsDecimal(s: string) {
    exists d :: WellFormed(d) && Text(d) == s
  }

  lemma {:induction false} IsDecimalIff(s: string)
    ensures IsDecimal(s) <==> ParseDecimal(s).Some?
  {
    if d :| WellFormed(d) && Text(d) == s { ParseDecimalIff(s, d); }
  }

  // ---------- values ----------

  function Pow10(n: nat): (p: real)
    ensures p >= 1.0
  {
    if n == 0 then 1.0 else 10.0 * Pow10(n - 1)
  }

  function Magnitude(w: string, f: string): real
    requires AllDigits(w) && AllDigits(f)
  {
    DigitsValue(w + f) as real / Pow10(|f|)
  }

  function Shifted(x: real, sign: string, digits: string): real
    requires AllDigits(digits)
  {
    if sign == "-" then x / Pow10(DigitsValue(digits)) else x * Pow10(DigitsValue(digits))
  }

  function Value(d: Decimal): real
    requires WellFormed(d)
  {
    var x := Magnitude(d.whole, d.fraction);
    var scaled := if d.exponent.NoExponent? then x else Shifted(x, d.exponent.sign, d.exponent.digits);
    if d.negative then 0.0 - scaled else scaled
  }

  /** The value of a numeral without an exponent is that of all its digits, divided by ten for every digit
      after the point. */
  lemma {:induction false} PlainValue(w: string, f: string)
    requires 1 <= |w| <= 32 && AllDigits(w) && |f| <= 24 && AllDigits(f)
    ensures AllDigits(w + f)
    ensures Value(Decimal(false, w, f, NoExponent)) == DigitsValue(w + f) as real / Pow10(|f|)
  {
    assert forall i | 0 <= i < |w + f| :: (w + f)[i] == if i < |w| then w[i] else f[i - |w|];
  }

  /** A minus negates. */
  lemma {:induction false} NegativeValue(d: Decimal)
    requires WellFormed(d) && d.negative
    ensures Value(d) == 0.0 - Value(d.(negative := false))
  {
  }

  /** An exponent multiplies by that power of ten, a negative one divides by it. */
  lemma {:induction false} ShiftedValue(d: Decimal)
    requires WellFormed(d) && !d.negative && d.exponent.Exponent?
    ensures var plain, p := Value(d.(exponent := NoExponent)), Pow10(DigitsValue(d.exponent.digits));
      Value(d) == if d.exponent.sign == "-" then plain / p else plain * p
  {
    assert Value(d.(exponent := NoExponent)) == Magnitude(d.whole, d.fraction);
  }

  lemma {:induction false} PowersOfTen(n: nat)
    ensures Pow10(0) == 1.0 && Pow10(n + 1) == 10.0 * Pow10(n)
    ensures forall s: string, c: char :: AllDigits(s) && IsDigit(c) ==>
      AllDigits(s + [c]) && DigitsValue(s + [c]) == 10 * DigitsValue(s) + (c as int - '0' as int)
  {
    forall s: string, c: char | AllDigits(s) && IsDigit(c)
      ensures AllDigits(s + [c]) && DigitsValue(s + [c]) == 10 * DigitsValue(s) + (c as int - '0' as int)
    {
      assert (s + [c])[..|s|] == s;
    }
  }

  /** The grammar, spelled out: an optional minus, 1 to 32 digits, a point with 1 to 24 digits or none, and
      an exponent of one or two digits, with or without a sign, or none. */
  ghost predicate Spelled(minus: string, w: string, f: string, x: string) {
    && (minus == "" || minus == "-") && 1 <= |w| <= 32 && AllDigits(w)
    && (f == "" || (2 <= |f| <= 25 && f[0] == '.' && AllDigits(f[1..])))
    && (x == ""
        || ((x[0] == 'e' || x[0] == 'E')
            && ((2 <= |x| <= 3 && AllDigits(x[1..]))
                || (3 <= |x| <= 4 && (x[1] == '+' || x[1] == '-') && AllDigits(x[2..])))))
  }

  lemma {:induction false} ExponentIsRead(x: string)
    requires Spelled("", "0", "", x)
    ensures ParseExponent(x).Some?
  {
  }

  lemma {:induction false} FractionIsSpelled(f: string)
    requires Spelled("", "0", f, "")
    ensures var fraction := if f == "" then "" else f[1..];
      AllDigits(fraction) && |fraction| <= 24 && FractionText(fraction) == f
  {
    if f != "" { assert f == "." + f[1..]; }
  }

  lemma {:induction false} ExponentIsWellFormed(x: string)
    requires Spelled("", "0", "", x)
    ensures ParseExponent(x).Some? && WellFormed(Decimal(false, "0", "", ParseExponent(x).value))
  {
    ExponentIsRead(x);
  }

  lemma {:induction false} SpelledIsDecimal(minus: string, w: string, f: string, x: string)
    requires Spelled(minus, w, f, x)
    ensures IsDecimal(minus + (w + (f + x)))
  {
    FractionIsSpelled(f);
    ExponentIsWellFormed(x);
    var d := Decimal(minus == "-", w, if f == "" then "" else f[1..], ParseExponent(x).value);
    assert WellFormed(d) && Text(d) == minus + (w + (f + x));
  }

  lemma {:induction false} DecimalIsSpelled(s: string) returns (minus: string, w: string, f: string, x: string)
    requires IsDecimal(s)
    ensures Spelled(minus, w, f, x) && s == minus + (w + (f + x))
  {
    var d :| WellFormed(d) && Text(d) == s;
    minus, w := if d.negative then "-" else "", d.whole;
    f, x := FractionText(d.fraction), ExponentText(d.exponent);
    if d.fraction != "" { assert f[1..] == d.fraction; }
    if d.exponent.Exponent? {
      assert x[1..] == d.exponent.sign + d.exponent.digits;
      if d.exponent.sign == "" {
        assert x[1..] == d.exponent.digits;
      } else {
        assert x[2..] == d.exponent.digits && x[1] == d.exponent.sign[0];
      }
    }
  }
}
