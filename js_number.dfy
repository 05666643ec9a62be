/**
 * JavaScript numbers as the front-end uses them: exact reals plus NaN, and the
 * `parseFloat` / `parseInt` readers that turn form text into numbers.
 */
module JsNumber {
  import opened JsText

  /** A JavaScript number: a finite value (kept exact) or NaN. */
  datatype Num = Finite(value: real) | NaN

  /** `a + b`: NaN absorbs. */
  function Add(a: Num, b: Num): (r: Num)
    ensures r.Finite? <==> a.Finite? && b.Finite?
    ensures r.Finite? ==> r.value == a.value + b.value
  {
    if a.Finite? && b.Finite? then Finite(a.value + b.value) else NaN
  }

  /** `a * b`: NaN absorbs. */
  function Mul(a: Num, b: Num): (r: Num)
    ensures r.Finite? <==> a.Finite? && b.Finite?
    ensures r.Finite? ==> r.value == a.value * b.value
  {
    if a.Finite? && b.Finite? then Finite(a.value * b.value) else NaN
  }

  /** `a / d` for a divisor known to be a non-zero number. */
  function Div(a: Num, d: real): (r: Num)
    requires d != 0.0
    ensures r.Finite? <==> a.Finite?
    ensures r.Finite? ==> r.value * d == a.value
  {
    if a.Finite? then Finite(a.value / d) else NaN
  }

  /** `n <= x`: false whenever `n` is NaN. */
  predicate AtMost(n: Num, x: real) {
    n.Finite? && n.value <= x
  }

  /** `n > x`: false whenever `n` is NaN. */
  predicate Exceeds(n: Num, x: real) {
    n.Finite? && n.value > x
  }

  // ---------- reading numbers from text ----------

  /**
   * The white-space characters `parseFloat` and `parseInt` skip before the
   * number: ECMAScript's WhiteSpace (tab, vertical tab, form feed, space,
   * no-break space, the byte-order mark and every Unicode "Zs" space) and
   * LineTerminator (line feed, carriage return, U+2028 and U+2029).
   */
  predicate IsJsSpace(c: char) {
    c == ' ' || c == '\t' || c == '\n' || c == '\r' ||
    c as int == 0x0B || c as int == 0x0C || c as int == 0xA0 ||
    c as int == 0xFEFF || c as int == 0x2028 || c as int == 0x2029 ||
    c as int == 0x1680 || 0x2000 <= c as int <= 0x200A || c as int == 0x202F ||
    c as int == 0x205F || c as int == 0x3000
  }

  function TrimStart(s: string): (r: string)
    ensures |r| <= |s|
    decreases |s|
  {
    if s != [] && IsJsSpace(s[0]) then TrimStart(s[1..]) else s
  }

  /** A white-space character before the text changes neither reading. */
  lemma SpaceSkipped(c: char, s: string)
    requires IsJsSpace(c)
    ensures ParseFloat([c] + s) == ParseFloat(s)
    ensures ParseInt([c] + s) == ParseInt(s)
  {
    assert ([c] + s)[1..] == s;
    assert TrimStart([c] + s) == TrimStart(s);
  }

  /** Whether the text starts with a minus sign. */
  predicate Negative(s: string) {
    s != [] && s[0] == '-'
  }

  /** `x` with the sign an optional leading `+` or `-` of `s` gives it. */
  function Signed(s: string, x: real): real {
    if Negative(s) then -x else x
  }

  function AfterSign(s: string): string {
    if s != [] && (s[0] == '-' || s[0] == '+') then s[1..] else s
  }

  /** The longest prefix of decimal digits. */
  function LeadingDigits(s: string): (d: string)
    ensures |d| <= |s| && AllDigits(d)
    decreases |s|
  {
    if s != [] && IsDigit(s[0]) then [s[0]] + LeadingDigits(s[1..]) else ""
  }

  /** The value of digits written after a decimal point: "25" is 0.25. */
  function FractionValue(digits: string): (f: real)
    requires AllDigits(digits)
    ensures 0.0 <= f <= 1.0
    decreases |digits|
  {
    if digits == [] then 0.0
    else (DigitValue(digits[0]) as real + FractionValue(digits[1..])) / 10.0
  }

  /** `x` times ten to the power `e`, or divided by it when `down` holds. */
  function ScaleByPowerOfTen(x: real, e: nat, down: bool): real
    decreases e
  {
    if e == 0 then x
    else if down then ScaleByPowerOfTen(x / 10.0, e - 1, down)
    else ScaleByPowerOfTen(x * 10.0, e - 1, down)
  }

  /** `x` scaled by an optional exponent part (`e`, sign, digits) at the start of `s`. */
  function ApplyExponent(x: real, s: string): real {
    if s != [] && (s[0] == 'e' || s[0] == 'E') then
      var digits := LeadingDigits(AfterSign(s[1..]));
      if digits == [] then x
      else ScaleByPowerOfTen(x, DigitsValue(digits), Negative(s[1..]))
    else x
  }

  /**
   * `parseFloat(s)`: skip leading white space, read an optional sign, digits,
   * an optional fraction and an optional exponent, ignore whatever follows;
   * NaN when no digit can be read.
   */
  function ParseFloat(s: string): Num {
    ReadFloat(TrimStart(s))
  }

  /** `parseFloat` once the leading white space is gone. */
  function ReadFloat(t: string): Num {
    var u := AfterSign(t);
    var intDigits := LeadingDigits(u);
    var afterInt := u[|intDigits|..];
    var hasPoint := StartsWith(afterInt, ".");
    var fracDigits := if hasPoint then LeadingDigits(afterInt[1..]) else "";
    if intDigits == [] && fracDigits == [] then NaN
    else
      var rest := if hasPoint then afterInt[1 + |fracDigits|..] else afterInt;
      var mantissa := DigitsValue(intDigits) as real + FractionValue(fracDigits);
      Finite(Signed(t, ApplyExponent(mantissa, rest)))
  }

  /**
   * `parseInt(s)` in base ten: skip leading white space, read an optional sign
   * and the digits that follow, ignore the rest; NaN when there is no digit.
   */
  function ParseInt(s: string): Num {
    ReadInt(TrimStart(s))
  }

  /** `parseInt` once the leading white space is gone. */
  function ReadInt(t: string): Num {
    var digits := LeadingDigits(AfterSign(t));
    if digits == [] then NaN else Finite(Signed(t, DigitsValue(digits) as real))
  }

  lemma {:induction false} LeadingDigitsOfDigits(s: string)
    requires AllDigits(s)
    ensures LeadingDigits(s) == s
    decreases |s|
  {
    if s != [] {
      LeadingDigitsOfDigits(s[1..]);
      assert [s[0]] + s[1..] == s;
    }
  }

  /** Reading back the decimal rendering of a whole number gives that number. */
  lemma ParseIntOfNat(n: nat)
    ensures ParseInt(NatToString(n)) == Finite(n as real)
  {
    var s := NatToString(n);
    assert TrimStart(s) == s;
    LeadingDigitsOfDigits(s);
    NatToStringValue(n);
  }

  /** A zero-padded digit string reads as its value. */
  lemma ParseIntOfPadded(n: nat)
    ensures ParseInt("0" + NatToString(n)) == Finite(n as real)
  {
    var s := "0" + NatToString(n);
    assert TrimStart(s) == s;
    LeadingZeroValue(NatToString(n));
    LeadingDigitsOfDigits(s);
    NatToStringValue(n);
  }

  /** `parseFloat` also reads a whole number back exactly. */
  lemma ParseFloatOfNat(n: nat)
    ensures ParseFloat(NatToString(n)) == Finite(n as real)
  {
    var s := NatToString(n);
    assert TrimStart(s) == s;
    assert !Negative(s) && AfterSign(s) == s;
    LeadingDigitsOfDigits(s);
    NatToStringValue(n);
    var afterInt := s[|s|..];
    assert afterInt == "" && !StartsWith(afterInt, ".");
    assert ApplyExponent(n as real, afterInt) == n as real;
    assert DigitsValue("") == 0 && FractionValue("") == 0.0;
  }

  /** Empty text reads as NaN under both readers. */
  lemma EmptyIsNaN()
    ensures ParseFloat("") == NaN && ParseInt("") == NaN
  {
  }

  /** Adding numbers is associative, NaN included. */
  lemma AddAssociative(a: Num, b: Num, c: Num)
    ensures Add(Add(a, b), c) == Add(a, Add(b, c))
  {
  }

  /** No digit can be read exactly when the text does not start with one. */
  lemma NoLeadingDigits(u: string)
    ensures LeadingDigits(u) == [] <==> !(u != [] && IsDigit(u[0]))
  {
  }

  /**
   * `parseFloat` gives NaN exactly when, after the white space and an
   * optional sign, the text starts neither with a digit nor with a point
   * followed by a digit.
   */
  lemma ParseFloatNaN(s: string)
    ensures var u := AfterSign(TrimStart(s));
            ParseFloat(s) == NaN <==>
              !((u != [] && IsDigit(u[0])) || (|u| > 1 && u[0] == '.' && IsDigit(u[1])))
  {
    var u := AfterSign(TrimStart(s));
    var intDigits := LeadingDigits(u);
    var afterInt := u[|intDigits|..];
    var hasPoint := StartsWith(afterInt, ".");
    var fracDigits := if hasPoint then LeadingDigits(afterInt[1..]) else "";
    assert ParseFloat(s) == NaN <==> intDigits == [] && fracDigits == [];
    NoLeadingDigits(u);
    if intDigits == [] {
      assert afterInt == u;
      assert hasPoint <==> u != [] && u[0] == '.';
      if hasPoint {
        NoLeadingDigits(u[1..]);
      }
    }
  }

  /**
   * `parseInt` gives NaN exactly when, after the white space and an
   * optional sign, the text does not start with a digit; whenever it reads
   * a number, `parseFloat` reads one too.
   */
  lemma ParseIntNaN(s: string)
    ensures var u := AfterSign(TrimStart(s));
            ParseInt(s) == NaN <==> !(u != [] && IsDigit(u[0]))
    ensures ParseInt(s).Finite? ==> ParseFloat(s).Finite?
  {
    ParseFloatNaN(s);
  }

  /** What `parseInt` reads is a whole number. */
  lemma ParseIntIsWhole(s: string)
    ensures ParseInt(s).Finite? ==> ParseInt(s).value == ParseInt(s).value.Floor as real
  {
    var t := TrimStart(s);
    var digits := LeadingDigits(AfterSign(t));
    if digits != [] {
      var n: int := DigitsValue(digits);
      assert ParseInt(s).value == Signed(t, n as real);
      assert (n as real).Floor == n;
      assert (-(n as real)).Floor == -n;
    }
  }
}
