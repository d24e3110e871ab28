/** The numeric-text test `^-?\d*(\.\d+)?$` that guards every numeric parse of a
    stored value (utils.js, api2.js), and the number `parseFloat` reads from a
    text that passes it. */
module NumericText {
  import opened Common

  predicate IsDigit(c: char) {
    '0' <= c <= '9'
  }

  predicate AllDigits(s: string) {
    forall i :: 0 <= i < |s| ==> IsDigit(s[i])
  }

  /** "-" when the text starts with a minus sign, "" otherwise. */
  function SignPart(s: string): string {
    if |s| > 0 && s[0] == '-' then "-" else ""
  }

  /** The text after an optional leading '-'. */
  function Magnitude(s: string): (m: string)
    ensures |m| <= |s|
  {
    if |s| > 0 && s[0] == '-' then s[1..] else s
  }

  /** A text is its sign followed by its magnitude. */
  lemma SignThenMagnitude(s: string)
    ensures s == SignPart(s) + Magnitude(s)
  {
    if |s| > 0 && s[0] == '-' {
      assert s == [s[0]] + s[1..];
    }
  }

  /** Position of the first '.', or the length when there is none. */
  function DotIndex(t: string): (k: nat)
    ensures k <= |t|
    ensures forall i :: 0 <= i < k ==> t[i] != '.'
    ensures k < |t| ==> t[k] == '.'
  {
    if t == [] then 0
    else if t[0] == '.' then 0
    else 1 + DotIndex(t[1..])
  }

  /** The digits before the point. */
  function IntPart(s: string): string {
    var m := Magnitude(s);
    m[..DotIndex(m)]
  }

  predicate HasPoint(s: string) {
    DotIndex(Magnitude(s)) < |Magnitude(s)|
  }

  /** The digits after the point ("" when there is no point). */
  function FracPart(s: string): string {
    var m := Magnitude(s);
    var k := DotIndex(m);
    if k < |m| then m[k + 1..] else ""
  }

  /** Membership in the regular language `-?\d*(\.\d+)?`. */
  predicate NumericText(s: string) {
    AllDigits(IntPart(s)) && (HasPoint(s) ==> |FracPart(s)| > 0 && AllDigits(FracPart(s)))
  }

  /** The text an optional sign, a run of digits and an optional fraction spell. */
  function Compose(negative: bool, digits: string, fraction: string): string {
    (if negative then "-" else "") + digits + (if fraction == "" then "" else "." + fraction)
  }

  lemma {:induction false} DotIndexAfterDigits(d: string, rest: string)
    requires AllDigits(d)
    requires rest == [] || rest[0] == '.'
    ensures DotIndex(d + rest) == |d|
  {
    if d != [] {
      assert (d + rest)[1..] == d[1..] + rest;
      DotIndexAfterDigits(d[1..], rest);
    }
  }

  /** Every text of the regular language is a sign, digits and an optional
      fraction of at least one digit, and it is made of its own parts. */
  lemma NumericTextDecomposes(s: string)
    requires NumericText(s)
    ensures AllDigits(IntPart(s)) && AllDigits(FracPart(s))
    ensures HasPoint(s) <==> FracPart(s) != ""
    ensures s == Compose(SignPart(s) == "-", IntPart(s), FracPart(s))
  {
    MagnitudeSplits(s);
    var sign := SignPart(s);
    var d := IntPart(s);
    var f := FracPart(s);
    assert AllDigits(f) && (HasPoint(s) <==> f != "");
    var tail := if f == "" then "" else "." + f;
    assert s == Compose(sign == "-", d, f) by {
      assert Magnitude(s) == d + tail;
      calc {
        Compose(sign == "-", d, f);
        (if sign == "-" then "-" else "") + d + tail;
        { assert (if sign == "-" then "-" else "") == sign; }
        (sign + d) + tail;
        { assert (sign + d) + tail == sign + (d + tail); }
        sign + Magnitude(s);
        { SignThenMagnitude(s); }
        s;
      }
    }
  }

  /** The magnitude is the digits before the point, then the point and the
      digits after it when there is a point. */
  lemma MagnitudeSplits(s: string)
    ensures HasPoint(s) ==> Magnitude(s) == IntPart(s) + ("." + FracPart(s))
    ensures !HasPoint(s) ==> Magnitude(s) == IntPart(s) && FracPart(s) == ""
  {
    var m := Magnitude(s);
    var k := DotIndex(m);
    if k < |m| {
      assert m == m[..k] + ("." + m[k + 1..]);
    } else {
      assert m == m[..k];
    }
  }

  /** Conversely, every sign, run of digits and fraction compose a text of the
      language, and the parts read back are the ones put in. */
  lemma ComposedIsNumeric(negative: bool, digits: string, fraction: string)
    requires AllDigits(digits) && AllDigits(fraction)
    ensures NumericText(Compose(negative, digits, fraction))
    ensures IntPart(Compose(negative, digits, fraction)) == digits
    ensures FracPart(Compose(negative, digits, fraction)) == fraction
    ensures SignPart(Compose(negative, digits, fraction)) == (if negative then "-" else "")
  {
    var s := Compose(negative, digits, fraction);
    var tail := if fraction == "" then "" else "." + fraction;
    var m := digits + tail;
    ComposedMagnitude(negative, digits, fraction);
    assert DotIndex(m) == |digits| by {
      DotIndexAfterDigits(digits, tail);
    }
    assert IntPart(s) == digits by {
      assert m[..|digits|] == digits;
    }
    assert FracPart(s) == fraction by {
      if fraction != "" {
        assert m[|digits| + 1..] == fraction;
      }
    }
  }

  /** The sign and the magnitude of a composed text. */
  lemma ComposedMagnitude(negative: bool, digits: string, fraction: string)
    requires AllDigits(digits)
    ensures Magnitude(Compose(negative, digits, fraction)) == digits + (if fraction == "" then "" else "." + fraction)
    ensures SignPart(Compose(negative, digits, fraction)) == (if negative then "-" else "")
  {
    var tail := if fraction == "" then "" else "." + fraction;
    var s := Compose(negative, digits, fraction);
    var m := digits + tail;
    if negative {
      assert s == "-" + m;
      assert s[1..] == m;
    } else {
      assert s == m;
      if digits != [] {
        assert s[0] == digits[0];
      } else if fraction != "" {
        assert s[0] == '.';
      }
    }
  }

  /** The language membership, stated as the regular expression reads. */
  lemma NumericTextIff(s: string)
    ensures NumericText(s) <==> exists negative: bool, d: string, f: string ::
                                  AllDigits(d) && AllDigits(f) && s == Compose(negative, d, f)
  {
    if NumericText(s) {
      NumericTextDecomposes(s);
    }
    if exists negative: bool, d: string, f: string :: AllDigits(d) && AllDigits(f) && s == Compose(negative, d, f) {
      var negative: bool, d: string, f: string :| AllDigits(d) && AllDigits(f) && s == Compose(negative, d, f);
      ComposedIsNumeric(negative, d, f);
    }
  }

  /** The examples the pool relies on: '', '.5' and '-3' pass. */
  lemma NumericTextAccepts()
    ensures NumericText("") && NumericText(".5") && NumericText("-3")
  {
    ComposedIsNumeric(false, "", "");
    ComposedIsNumeric(false, "", "5");
    ComposedIsNumeric(true, "3", "");
    assert Compose(false, "", "5") == ".5";
    assert Compose(true, "3", "") == "-3";
  }

  /** A point with no digit after it, and an exponent, fail the test. */
  lemma NumericTextRejects()
    ensures !NumericText("1.") && !NumericText("1e5")
  {
    assert DotIndex("1.") == 1;
    assert FracPart("1.") == "";
    assert DotIndex("1e5") == 3;
    assert IntPart("1e5") == "1e5";
    assert !IsDigit("1e5"[1]);
  }

  function DigitValue(c: char): nat
    requires IsDigit(c)
  {
    c as int - '0' as int
  }

  /** The value of a run of decimal digits. */
  function DigitsValue(d: string): nat
    requires AllDigits(d)
  {
    if d == [] then 0 else 10 * DigitsValue(d[..|d| - 1]) + DigitValue(d[|d| - 1])
  }

  function Pow10(n: nat): (r: nat)
    ensures r > 0
  {
    if n == 0 then 1 else 10 * Pow10(n - 1)
  }

  /** `parseFloat` of a text that passes the numeric test; None when the test
      fails, and also for "" and "-", which pass it but parse to NaN. */
  function ParseNumeric(s: string): Option<real> {
    if !NumericText(s) || Magnitude(s) == "" then None
    else
      var magnitude := DigitsValue(IntPart(s)) as real + DecimalValue(FracPart(s));
      Some(if SignPart(s) == "-" then -magnitude else magnitude)
  }

  /** The value of the digits after a decimal point. */
  function DecimalValue(fraction: string): real
    requires AllDigits(fraction)
  {
    DigitsValue(fraction) as real / Pow10(|fraction|) as real
  }

  /** The value the source uses after the test: the parsed number, or 0 when the
      test fails.  (For "" and "-" the source holds NaN; every use modelled here
      only asks whether the value is positive, where NaN and 0 agree.) */
  function NumericValue(s: string): real {
    ParseNumeric(s).GetOr(0.0)
  }

  /** A number that the numeric test admits and that has no minus sign is never negative. */
  lemma UnsignedIsNonNegative(s: string)
    requires SignPart(s) == ""
    ensures NumericValue(s) >= 0.0
  {
    if ParseNumeric(s).Some? {
      var f := FracPart(s);
      assert DigitsValue(f) as real >= 0.0 && Pow10(|f|) as real > 0.0;
      DivisionNonNegative(DigitsValue(f) as real, Pow10(|f|) as real);
    }
  }

  lemma DivisionNonNegative(x: real, y: real)
    requires x >= 0.0 && y > 0.0
    ensures x / y >= 0.0
  {
  }

  /** The decimal text of a natural number, as JavaScript renders an integer. */
  function NatText(n: nat): (t: string)
    ensures |t| > 0 && AllDigits(t)
  {
    var c := ['0', '1', '2', '3', '4', '5', '6', '7', '8', '9'][n % 10];
    if n < 10 then [c] else NatText(n / 10) + [c]
  }

  lemma {:induction false} NatTextValue(n: nat)
    ensures DigitsValue(NatText(n)) == n
  {
    var t := NatText(n);
    if n >= 10 {
      NatTextValue(n / 10);
      assert t[..|t| - 1] == NatText(n / 10);
    }
  }

  /** A run of digits with an optional sign and no fraction parses to its digits' value. */
  lemma WholeNumberParts(negative: bool, t: string)
    requires |t| > 0 && AllDigits(t)
    ensures NumericText(Compose(negative, t, ""))
    ensures Magnitude(Compose(negative, t, "")) == t
    ensures IntPart(Compose(negative, t, "")) == t && FracPart(Compose(negative, t, "")) == ""
    ensures SignPart(Compose(negative, t, "")) == (if negative then "-" else "")
  {
    var s := Compose(negative, t, "");
    ComposedIsNumeric(negative, t, "");
    if negative {
      assert s == "-" + t;
    } else {
      assert s == t;
      assert IsDigit(t[0]);
    }
  }

  lemma ParseWholeNumber(s: string, t: string)
    requires NumericText(s) && Magnitude(s) != ""
    requires AllDigits(t) && IntPart(s) == t && FracPart(s) == ""
    ensures ParseNumeric(s) == Some(if SignPart(s) == "-" then -(DigitsValue(t) as real) else DigitsValue(t) as real)
  {
    assert DecimalValue("") == 0.0;
  }

  /** Round trip: the text of a natural number passes the numeric test and
      parses back to the same number. */
  lemma NatTextRoundTrip(n: nat)
    ensures NumericText(NatText(n)) && ParseNumeric(NatText(n)) == Some(n as real)
  {
    var t := NatText(n);
    NatTextValue(n);
    assert Compose(false, t, "") == t;
    WholeNumberParts(false, t);
    assert SignPart(t) == "";
    ParseWholeNumber(t, t);
  }

  /** The same with a leading minus sign: the text parses to the negated number. */
  lemma NegatedNatTextRoundTrip(n: nat)
    ensures NumericText("-" + NatText(n)) && ParseNumeric("-" + NatText(n)) == Some(-(n as real))
  {
    var t := NatText(n);
    var s := "-" + t;
    NatTextValue(n);
    assert Compose(true, t, "") == s;
    WholeNumberParts(true, t);
    assert SignPart(s) == "-";
    ParseWholeNumber(s, t);
  }
}
