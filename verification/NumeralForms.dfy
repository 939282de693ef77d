/** What each form of numeral is read as, and which texts are no numerals. */
module NumeralForms {
  import opened Json
  import opened Numerals

  predicate AllBlank(s: string) {
    forall i :: 0 <= i < |s| ==> Blank(s[i])
  }

  lemma {:induction false} StripLeftBlank(l: string, s: string)
    requires AllBlank(l)
    ensures StripLeft(l + s) == StripLeft(s)
  {
    if l == "" {
      assert l + s == s;
    } else {
      assert (l + s)[1..] == l[1..] + s;
      StripLeftBlank(l[1..], s);
    }
  }

  lemma {:induction false} StripRightBlank(s: string, r: string)
    requires AllBlank(r)
    ensures StripRight(s + r) == StripRight(s)
  {
    if r == "" {
      assert s + r == s;
    } else {
      assert (s + r)[..|s + r| - 1] == s + r[..|r| - 1];
      StripRightBlank(s, r[..|r| - 1]);
    }
  }

  /** A text that neither starts nor ends with a blank, or is empty. */
  predicate Tight(s: string) {
    s != "" ==> !Blank(s[0]) && !Blank(s[|s| - 1])
  }

  lemma TightStays(s: string, r: string)
    requires s != "" && Tight(s)
    ensures StripLeft(s + r) == s + r && StripRight(s) == s && Strip(s) == s
  {
    assert (s + r)[0] == s[0];
  }

  lemma BlanksStripped(l: string, s: string, r: string)
    requires AllBlank(l) && AllBlank(r) && s != "" && Tight(s)
    ensures Strip(l + (s + r)) == s
  {
    StripLeftBlank(l, s + r);
    TightStays(s, r);
    StripRightBlank(s, r);
  }

  lemma SameStripped(text: string, s: string)
    requires Strip(text) == Strip(s)
    ensures Numeral(text) == Numeral(s)
  {
  }

  /** Blanks around a numeral do not matter. */
  lemma BlanksAround(l: string, s: string, r: string)
    requires AllBlank(l) && AllBlank(r) && s != "" && Tight(s)
    ensures Numeral(l + (s + r)) == Numeral(s)
  {
    BlanksStripped(l, s, r);
    TightStays(s, "");
    SameStripped(l + (s + r), s);
  }

  // ---------------------------------------------------------------- signs

  lemma SignPlain(c: char, digits: string, s: string)
    requires (c == '-' || c == '+') && digits != "" && AllDigits(digits) && s == [c] + digits
    ensures Strip(s) == s && UnderscoresOk(s) && WithoutUnderscores(s) == s && Unsign(s) == digits && (Negative(s) <==> c == '-')
  {
    assert s[|s| - 1] == digits[|digits| - 1];
    assert '_' !in s;
    NoUnderscores(s);
    assert s[1..] == digits;
  }

  lemma DigitsMagnitude(digits: string)
    requires digits != "" && AllDigits(digits)
    ensures Magnitude(digits) == Some(DigitsValue(digits) as real)
  {
    BeforeOfDigits(digits, "eE");
    UnsignedDigits(digits);
  }

  function Signed(m: Option<real>, negative: bool): Option<real> {
    match m
    case None => None
    case Some(x) => Some(if negative then -x else x)
  }

  /** A minus negates. */
  lemma SignedExact(x: real)
    ensures Signed(Some(x), true) == Some(-x) && Signed(Some(x), false) == Some(x)
  {
  }

  /** How a text is read, step by step. */
  lemma ReadInSteps(text: string, s: string, plain: string, body: string, m: Option<real>)
    requires s == Strip(text) && UnderscoresOk(s) && plain == WithoutUnderscores(s) && body == Unsign(plain) && m == Magnitude(body)
    ensures Numeral(text) == Signed(m, Negative(plain))
  {
  }

  /** A sign in front of digits. */
  lemma SignedNumeral(c: char, digits: string, s: string)
    requires (c == '-' || c == '+') && digits != "" && AllDigits(digits) && s == [c] + digits
    ensures Numeral(s) == Signed(Some(DigitsValue(digits) as real), c == '-')
  {
    SignPlain(c, digits, s);
    DigitsMagnitude(digits);
    ReadInSteps(s, s, s, digits, Some(DigitsValue(digits) as real));
  }

  // ---------------------------------------------------------------- points

  lemma PointPlain(whole: string, fraction: string, s: string)
    requires AllDigits(whole) && AllDigits(fraction) && s == whole + (['.'] + fraction)
    ensures Strip(s) == s && UnderscoresOk(s) && WithoutUnderscores(s) == s && Unsign(s) == s && !Negative(s)
  {
    assert forall i :: 0 <= i < |s| ==> Digit(s[i]) || s[i] == '.';
    NoUnderscores(s);
  }

  lemma {:induction false} NoStops(s: string, stops: string)
    requires forall c :: c in s ==> c !in stops
    ensures Before(s, stops) == s
  {
    if s != "" {
      assert s == [s[0]] + s[1..];
      NoStops(s[1..], stops);
    }
  }

  lemma PointParts(whole: string, fraction: string, s: string)
    requires AllDigits(whole) && AllDigits(fraction) && s == whole + (['.'] + fraction)
    ensures Before(s, "eE") == s && Before(s, ".") == whole && After(s, ".") == fraction
  {
    assert forall c :: c in s ==> Digit(c) || c == '.';
    NoStops(s, "eE");
    BeforeStop(whole, ".", '.', fraction);
  }

  function PointReading(whole: string, fraction: string): Option<real>
    requires AllDigits(whole) && AllDigits(fraction)
  {
    if whole == "" && fraction == "" then None
    else Some(DigitsValue(whole) as real + DigitsValue(fraction) as real / PowerOfTen(|fraction|))
  }

  /** Digits with a point among them are the whole part and the fraction; a point alone is no numeral. */
  lemma DecimalNumeral(whole: string, fraction: string, s: string)
    requires AllDigits(whole) && AllDigits(fraction) && s == whole + (['.'] + fraction)
    ensures Numeral(s) == PointReading(whole, fraction)
  {
    PointPlain(whole, fraction, s);
    PointParts(whole, fraction, s);
    PointUnsigned(s, whole, fraction);
    PlainMagnitude(s, PointReading(whole, fraction));
    ReadInSteps(s, s, s, s, PointReading(whole, fraction));
    SignedAsIs(PointReading(whole, fraction));
  }

  lemma SignedAsIs(m: Option<real>)
    ensures Signed(m, false) == m
  {
  }

  lemma PointUnsigned(s: string, whole: string, fraction: string)
    requires AllDigits(whole) && AllDigits(fraction) && Before(s, ".") == whole && After(s, ".") == fraction
    ensures PointReading(whole, fraction) == if Unsigned(s) then Some(UnsignedValue(s)) else None
  {
  }

  lemma PlainMagnitude(s: string, m: Option<real>)
    requires Before(s, "eE") == s && m == if Unsigned(s) then Some(UnsignedValue(s)) else None
    ensures Magnitude(s) == m
  {
  }

  // ---------------------------------------------------------------- exponents

  lemma DownPlain(digits: string, exponent: string, s: string)
    requires digits != "" && AllDigits(digits) && AllDigits(exponent) && exponent != "" && s == digits + (['e'] + (['-'] + exponent))
    ensures Strip(s) == s && UnderscoresOk(s) && WithoutUnderscores(s) == s && Unsign(s) == s && !Negative(s)
  {
    assert s[0] == digits[0] && s[|s| - 1] == exponent[|exponent| - 1];
    assert forall i :: 0 <= i < |s| ==> Digit(s[i]) || s[i] == 'e' || s[i] == '-';
    NoUnderscores(s);
  }

  /** What a shift up is. */
  lemma ShiftUp(x: real, exponent: string)
    requires exponent != "" && AllDigits(exponent)
    ensures Unsign(exponent) == exponent && Shifted(x, exponent) == x * PowerOfTen(DigitsValue(exponent))
  {
    DigitsStripped(exponent);
  }

  /** And a shift down. */
  lemma ShiftDown(x: real, exponent: string)
    requires exponent != "" && AllDigits(exponent)
    ensures Unsign(['-'] + exponent) == exponent && Shifted(x, ['-'] + exponent) == x / PowerOfTen(DigitsValue(exponent))
  {
    assert (['-'] + exponent)[1..] == exponent;
  }

  /** A negative exponent shifts down. */
  lemma NumeralOfNegativeExponent(digits: string, exponent: string)
    requires digits != "" && exponent != "" && AllDigits(digits) && AllDigits(exponent)
    ensures Unsign(['-'] + exponent) == exponent
    ensures Numeral(digits + (['e'] + (['-'] + exponent))) == Some(Shifted(DigitsValue(digits) as real, ['-'] + exponent))
  {
    var s := digits + (['e'] + (['-'] + exponent));
    DownPlain(digits, exponent, s);
    BeforeStop(digits, "eE", 'e', ['-'] + exponent);
    assert (['-'] + exponent)[1..] == exponent;
    UnsignedDigits(digits);
    ShiftedNumeral(s, digits, ['-'] + exponent);
  }

  lemma BarePlain(digits: string, s: string)
    requires digits != "" && AllDigits(digits) && s == digits + (['e'] + "")
    ensures Strip(s) == s && UnderscoresOk(s) && WithoutUnderscores(s) == s && Unsign(s) == s && !Negative(s)
  {
    assert forall i :: 0 <= i < |s| ==> Digit(s[i]) || s[i] == 'e';
    NoUnderscores(s);
  }

  /** An exponent needs digits. */
  lemma NoBareExponent(digits: string)
    requires digits != "" && AllDigits(digits)
    ensures Numeral(digits + (['e'] + "")) == None
  {
    var s := digits + (['e'] + "");
    BarePlain(digits, s);
    PlainNumeral(s);
    BeforeStop(digits, "eE", 'e', "");
  }

  // ---------------------------------------------------------------- underscores

  lemma {:induction false} UnderscoresConcat(a: string, b: string)
    ensures WithoutUnderscores(a + b) == WithoutUnderscores(a) + WithoutUnderscores(b)
  {
    if a == "" {
      assert a + b == b;
    } else {
      assert (a + b)[1..] == a[1..] + b;
      UnderscoresConcat(a[1..], b);
    }
  }

  lemma LeadingUnderscore(b: string)
    requires AllDigits(b)
    ensures WithoutUnderscores(['_'] + b) == b
  {
    assert (['_'] + b)[1..] == b;
    NoUnderscores(b);
  }

  lemma UnderscoreDropped(a: string, b: string)
    requires AllDigits(a) && AllDigits(b)
    ensures WithoutUnderscores(a + (['_'] + b)) == a + b
  {
    NoUnderscores(a);
    UnderscoresConcat(a, ['_'] + b);
    LeadingUnderscore(b);
  }

  lemma JoinedDigits(a: string, b: string, s: string)
    requires a != "" && b != "" && AllDigits(a) && AllDigits(b) && s == a + (['_'] + b)
    ensures Strip(s) == s && UnderscoresOk(s)
  {
    assert s[0] == a[0] && s[|s| - 1] == b[|b| - 1];
  }

  /** One underscore between digits is left out. */
  lemma UnderscoreLeftOut(a: string, b: string)
    requires a != "" && b != "" && AllDigits(a) && AllDigits(b)
    ensures AllDigits(a + b)
    ensures Numeral(a + (['_'] + b)) == Some(DigitsValue(a + b) as real)
  {
    var s := a + (['_'] + b);
    JoinedDigits(a, b, s);
    UnderscoreDropped(a, b);
    DigitsStripped(a + b);
    DigitsMagnitude(a + b);
    ReadInSteps(s, s, a + b, a + b, Some(DigitsValue(a + b) as real));
  }

  /** Anywhere else an underscore makes the text no numeral. */
  lemma UnderscoreMisplaced(s: string, i: nat)
    requires Strip(s) == s && i < |s| && s[i] == '_'
    requires i == 0 || i == |s| - 1 || !Digit(s[i - 1]) || !Digit(s[i + 1])
    ensures Numeral(s) == None
  {
  }
}
