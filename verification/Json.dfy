/** JSON-like values and dictionaries: what the services exchange and store. */
module Json {

  datatype Option<+T> = None | Some(value: T)

  /** The result of a computation that either returns or raises an exception. */
  datatype Outcome<+T> = Ok(value: T) | Raised

  /** Amounts are exact reals in pounds; timestamps are integers. */
  datatype Json =
    | Null
    | Num(n: real)
    | Str(s: string)
    | Time(t: int)
    | Arr(items: seq<Json>)
    | Obj(fields: map<string, Json>)

  type Dict = map<string, Json>

  /** `d.get(k, default)` */
  function Get(d: Dict, k: string, default: Json): Json {
    if k in d then d[k] else default
  }

  /** Truth value of a value in a condition. */
  predicate Truthy(j: Json) {
    match j
    case Null => false
    case Num(n) => n != 0.0
    case Str(s) => s != ""
    case Time(_) => true
    case Arr(items) => items != []
    case Obj(fields) => fields != map[]
  }

  /** Whether the value may be a dictionary key; lists and dictionaries may not. */
  predicate Hashable(j: Json) {
    !j.Arr? && !j.Obj?
  }
}

/**
 * Text that spells a number: blanks around an optional sign, decimal digits with at most one point, and an optional
 * exponent, with single underscores allowed between digits.
 */
module Numerals {
  import opened Json

  predicate Blank(c: char) {
    c == ' ' || '\t' <= c <= '\r' || '\U{1C}' <= c <= '\U{1F}'
  }

  function StripLeft(s: string): string {
    if s != "" && Blank(s[0]) then StripLeft(s[1..]) else s
  }

  function StripRight(s: string): string {
    if s != "" && Blank(s[|s| - 1]) then StripRight(s[..|s| - 1]) else s
  }

  /** `s.strip()` */
  function Strip(s: string): string {
    StripRight(StripLeft(s))
  }

  predicate Digit(c: char) {
    '0' <= c <= '9'
  }

  function DigitValue(c: char): nat
    requires Digit(c)
  {
    c as int - '0' as int
  }

  function DigitFor(n: nat): (c: char)
    requires n < 10
    ensures Digit(c) && DigitValue(c) == n
  {
    ('0' as int + n) as char
  }

  predicate AllDigits(s: string) {
    forall i :: 0 <= i < |s| ==> Digit(s[i])
  }

  function DigitsValue(s: string): nat
    requires AllDigits(s)
  {
    if s == "" then 0 else DigitsValue(s[..|s| - 1]) * 10 + DigitValue(s[|s| - 1])
  }

  function PowerOfTen(n: nat): (r: real)
    ensures r > 0.0
  {
    if n == 0 then 1.0 else 10.0 * PowerOfTen(n - 1)
  }

  /** The part before the first of the given characters. */
  function Before(s: string, stops: string): (w: string)
    ensures |w| <= |s| && w == s[..|w|]
  {
    if s == "" || s[0] in stops then "" else [s[0]] + Before(s[1..], stops)
  }

  function After(s: string, stops: string): string {
    if |Before(s, stops)| < |s| then s[|Before(s, stops)| + 1..] else ""
  }

  /** Digits, with or without a point among them. */
  predicate Unsigned(s: string) {
    AllDigits(Before(s, ".")) && AllDigits(After(s, ".")) && Before(s, ".") + After(s, ".") != ""
  }

  function UnsignedValue(s: string): real
    requires Unsigned(s)
  {
    DigitsValue(Before(s, ".")) as real + DigitsValue(After(s, ".")) as real / PowerOfTen(|After(s, ".")|)
  }

  predicate Negative(s: string) {
    s != "" && s[0] == '-'
  }

  function Unsign(s: string): string {
    if s != "" && (s[0] == '-' || s[0] == '+') then s[1..] else s
  }

  /** An underscore stands between two digits. */
  predicate UnderscoresOk(s: string) {
    forall i :: 0 <= i < |s| && s[i] == '_' ==> 0 < i < |s| - 1 && Digit(s[i - 1]) && Digit(s[i + 1])
  }

  function WithoutUnderscores(s: string): string {
    if s == "" then "" else (if s[0] == '_' then "" else [s[0]]) + WithoutUnderscores(s[1..])
  }

  /** `x` times ten to the power that the sign and the digits spell. */
  function Shifted(x: real, exponent: string): real
    requires AllDigits(Unsign(exponent))
  {
    var power := PowerOfTen(DigitsValue(Unsign(exponent)));
    if Negative(exponent) then x / power else x * power
  }

  function Magnitude(s: string): Option<real> {
    var mantissa, exponent := Before(s, "eE"), After(s, "eE");
    if !Unsigned(mantissa) then None
    else if mantissa == s then Some(UnsignedValue(s))
    else if Unsign(exponent) == "" || !AllDigits(Unsign(exponent)) then None
    else Some(Shifted(UnsignedValue(mantissa), exponent))
  }

  /** `float(text)`, `None` where it raises. */
  function Numeral(text: string): Option<real> {
    var s := Strip(text);
    if !UnderscoresOk(s) then None
    else
      var plain := WithoutUnderscores(s);
      match Magnitude(Unsign(plain))
      case None => None
      case Some(x) => Some(if Negative(plain) then -x else x)
  }

  predicate Letter(c: char) {
    'a' <= c <= 'z' || 'A' <= c <= 'Z'
  }

  /** Text that no reading takes for a number: it starts with a letter, and not with that of an infinity or a not-a-number. */
  predicate Word(text: string) {
    text != "" && Letter(text[0]) && text[0] !in "iInN"
  }

  lemma {:induction false} StripRightKeepsHead(s: string)
    requires s != "" && !Blank(s[0])
    ensures StripRight(s) != "" && StripRight(s)[0] == s[0]
  {
    if Blank(s[|s| - 1]) {
      StripRightKeepsHead(s[..|s| - 1]);
    }
  }

  lemma WordIsNoNumeral(text: string)
    requires Word(text)
    ensures Numeral(text) == None
  {
    assert StripLeft(text) == text;
    StripRightKeepsHead(text);
    var plain := WithoutUnderscores(Strip(text));
    assert plain != "" && plain[0] == text[0];
    var mantissa := Before(plain, "eE");
    if mantissa != "" {
      assert Before(mantissa, ".")[0] == text[0];
    }
  }

  /** The decimal spelling of a natural number. */
  function Spelling(n: nat): (s: string)
    ensures s != "" && AllDigits(s)
  {
    (if n < 10 then "" else Spelling(n / 10)) + [DigitFor(n % 10)]
  }

  lemma {:induction false} DigitsOfSpelling(n: nat)
    ensures DigitsValue(Spelling(n)) == n
  {
    var front := if n < 10 then "" else Spelling(n / 10);
    assert Spelling(n) == front + [DigitFor(n % 10)];
    DigitsAppend(front, DigitFor(n % 10));
    if n >= 10 {
      DigitsOfSpelling(n / 10);
    }
  }

  lemma DigitsAppend(s: string, c: char)
    requires AllDigits(s) && Digit(c)
    ensures DigitsValue(s + [c]) == DigitsValue(s) * 10 + DigitValue(c)
  {
    assert (s + [c])[..|s|] == s;
  }

  lemma {:induction false} BeforeOfDigits(s: string, stops: string)
    requires AllDigits(s) && forall c :: c in stops ==> !Digit(c)
    ensures Before(s, stops) == s
  {
    if s != "" {
      assert s == [s[0]] + s[1..];
      BeforeOfDigits(s[1..], stops);
    }
  }

  lemma {:induction false} NoUnderscores(s: string)
    requires '_' !in s
    ensures WithoutUnderscores(s) == s
  {
    if s != "" {
      assert s == [s[0]] + s[1..];
      NoUnderscores(s[1..]);
    }
  }

  lemma UnsignedDigits(s: string)
    requires s != "" && AllDigits(s)
    ensures Unsigned(s) && UnsignedValue(s) == DigitsValue(s) as real
  {
    BeforeOfDigits(s, ".");
    assert After(s, ".") == "" && PowerOfTen(0) == 1.0;
  }

  lemma DigitsStripped(s: string)
    requires s != "" && AllDigits(s)
    ensures Strip(s) == s && UnderscoresOk(s) && Unsign(s) == s && !Negative(s)
  {
    assert Digit(s[0]) && Digit(s[|s| - 1]);
  }

  lemma NumeralOfDigits(s: string)
    requires s != "" && AllDigits(s)
    ensures Numeral(s) == Some(DigitsValue(s) as real)
  {
    DigitsStripped(s);
    NoUnderscores(s);
    BeforeOfDigits(s, "eE");
    UnsignedDigits(s);
  }

  /** Reading back the spelling of a number gives the number. */
  lemma NumeralOfSpelling(n: nat)
    ensures Numeral(Spelling(n)) == Some(n as real)
  {
    DigitsOfSpelling(n);
    NumeralOfDigits(Spelling(n));
  }

  lemma {:induction false} BeforeStop(s: string, stops: string, c: char, rest: string)
    requires AllDigits(s) && c in stops && forall x :: x in stops ==> !Digit(x)
    ensures Before(s + ([c] + rest), stops) == s && After(s + ([c] + rest), stops) == rest
  {
    if s == "" {
      assert s + ([c] + rest) == [c] + rest;
    } else {
      assert (s + ([c] + rest))[1..] == s[1..] + ([c] + rest);
      BeforeStop(s[1..], stops, c, rest);
      assert s == [s[0]] + s[1..];
    }
  }

  lemma ExponentPlain(digits: string, exponent: string, s: string)
    requires digits != "" && exponent != "" && AllDigits(digits) && AllDigits(exponent) && s == digits + (['e'] + exponent)
    ensures Strip(s) == s && UnderscoresOk(s) && WithoutUnderscores(s) == s && Unsign(s) == s && !Negative(s)
  {
    assert Digit(s[0]) && Digit(s[|s| - 1]);
    assert forall i :: 0 <= i < |s| ==> Digit(s[i]) || s[i] == 'e';
    NoUnderscores(s);
  }

  lemma MagnitudeShifted(s: string)
    requires Unsigned(Before(s, "eE")) && Before(s, "eE") != s
    requires Unsign(After(s, "eE")) != "" && AllDigits(Unsign(After(s, "eE")))
    ensures Magnitude(s) == Some(Shifted(UnsignedValue(Before(s, "eE")), After(s, "eE")))
  {
  }

  lemma PlainNumeral(s: string)
    requires Strip(s) == s && UnderscoresOk(s) && WithoutUnderscores(s) == s && Unsign(s) == s && !Negative(s)
    ensures Numeral(s) == Magnitude(s)
  {
  }

  /** Digits with an exponent spell the number of the digits, shifted. */
  lemma NumeralOfExponent(digits: string, exponent: string)
    requires digits != "" && exponent != "" && AllDigits(digits) && AllDigits(exponent)
    ensures Unsign(exponent) == exponent
    ensures Numeral(digits + (['e'] + exponent)) == Some(Shifted(DigitsValue(digits) as real, exponent))
  {
    var s := digits + (['e'] + exponent);
    ExponentPlain(digits, exponent, s);
    BeforeStop(digits, "eE", 'e', exponent);
    DigitsStripped(exponent);
    UnsignedDigits(digits);
    ShiftedNumeral(s, digits, exponent);
  }

  lemma ShiftedNumeral(s: string, digits: string, exponent: string)
    requires Strip(s) == s && UnderscoresOk(s) && WithoutUnderscores(s) == s && Unsign(s) == s && !Negative(s)
    requires Before(s, "eE") == digits && After(s, "eE") == exponent && digits != s
    requires Unsigned(digits) && Unsign(exponent) != "" && AllDigits(Unsign(exponent))
    ensures Numeral(s) == Some(Shifted(UnsignedValue(digits), exponent))
  {
    PlainNumeral(s);
    MagnitudeShifted(s);
  }
}

/** Sequence functions shared by the models. */
module Seqs {

  predicate NoDuplicates<T(==)>(xs: seq<T>) {
    forall i, j :: 0 <= i < j < |xs| ==> xs[i] != xs[j]
  }

  function SetOf<T>(xs: seq<T>): set<T> {
    set x | x in xs
  }

  function Repeat<T>(x: T, n: nat): (r: seq<T>)
    ensures |r| == n
  {
    if n == 0 then [] else Repeat(x, n - 1) + [x]
  }

  /** `x` occurs somewhere before `y`. */
  predicate Ordered<T(==)>(xs: seq<T>, x: T, y: T) {
    exists a, b :: 0 <= a < b < |xs| && xs[a] == x && xs[b] == y
  }

  lemma OrderedGrows<T>(xs: seq<T>, ys: seq<T>, x: T, y: T)
    requires Ordered(xs, x, y)
    ensures Ordered(xs + ys, x, y)
  {
    var a, b :| 0 <= a < b < |xs| && xs[a] == x && xs[b] == y;
    assert (xs + ys)[a] == x && (xs + ys)[b] == y;
  }

  lemma OrderedLast<T>(xs: seq<T>, x: T, y: T)
    requires x in xs
    ensures Ordered(xs + [y], x, y)
  {
    var a :| 0 <= a < |xs| && xs[a] == x;
    assert (xs + [y])[a] == x && (xs + [y])[|xs|] == y;
  }

  /** The sum of `f` over a sequence. */
  function SumBy<T>(xs: seq<T>, f: T -> real): real {
    if xs == [] then 0.0 else f(xs[0]) + SumBy(xs[1..], f)
  }

  lemma {:induction false} SumByConcat<T>(xs: seq<T>, ys: seq<T>, f: T -> real)
    ensures SumBy(xs + ys, f) == SumBy(xs, f) + SumBy(ys, f)
  {
    if xs == [] {
      assert xs + ys == ys;
    } else {
      assert (xs + ys)[1..] == xs[1..] + ys;
      SumByConcat(xs[1..], ys, f);
    }
  }

  lemma {:induction false} SumByAppend<T>(xs: seq<T>, x: T, f: T -> real)
    ensures SumBy(xs + [x], f) == SumBy(xs, f) + f(x)
  {
    SumByConcat(xs, [x], f);
    assert [x][1..] == [];
    assert SumBy([x], f) == f(x) + SumBy([x][1..], f);
  }

  lemma {:induction false} SumByNonnegative<T>(xs: seq<T>, f: T -> real)
    requires forall x :: x in xs ==> f(x) >= 0.0
    ensures SumBy(xs, f) >= 0.0
  {
    if xs != [] {
      SumByNonnegative(xs[1..], f);
    }
  }

  /** The head of one permutation can be taken out of the other. */
  lemma MatchHead<T>(xs: seq<T>, ys: seq<T>) returns (left: seq<T>, right: seq<T>)
    requires multiset(xs) == multiset(ys) && xs != []
    ensures ys == left + ([xs[0]] + right)
    ensures multiset(xs[1..]) == multiset(left + right)
  {
    assert xs[0] in multiset(ys);
    var i :| 0 <= i < |ys| && ys[i] == xs[0];
    left, right := ys[..i], ys[i + 1..];
    assert xs == [xs[0]] + xs[1..];
    assert ys == left + ([ys[i]] + right);
    CancelHead(xs[0], xs[1..], left, right);
  }

  lemma CancelHead<T>(x: T, xs: seq<T>, left: seq<T>, right: seq<T>)
    requires multiset([x] + xs) == multiset(left + ([x] + right))
    ensures multiset(xs) == multiset(left + right)
  {
    assert multiset([x] + xs) == multiset{x} + multiset(xs);
    assert multiset(left + ([x] + right)) == multiset(left) + multiset([x] + right) == multiset{x} + multiset(left + right);
    assert multiset(xs) == (multiset{x} + multiset(xs)) - multiset{x};
    assert multiset(left + right) == (multiset{x} + multiset(left + right)) - multiset{x};
  }

  /** A sum does not depend on the order of the summands. */
  lemma {:induction false} SumByPermutation<T>(xs: seq<T>, ys: seq<T>, f: T -> real)
    requires multiset(xs) == multiset(ys)
    ensures SumBy(xs, f) == SumBy(ys, f)
  {
    if xs == [] {
      assert |ys| == |multiset(ys)| == 0;
    } else {
      var left, right := MatchHead(xs, ys);
      SumByPermutation(xs[1..], left + right, f);
      SumByConcat(left, right, f);
      SumByConcat(left, [xs[0]] + right, f);
    }
  }

  lemma SamePermutationElements<T>(xs: seq<T>, ys: seq<T>, x: T)
    requires multiset(xs) == multiset(ys)
    ensures |xs| == |ys|
    ensures x in xs <==> x in ys
  {
    assert |xs| == |multiset(xs)| == |multiset(ys)| == |ys|;
    assert x in xs <==> x in multiset(xs);
    assert x in ys <==> x in multiset(ys);
  }

  /** How many elements satisfy `f`. */
  function CountBy<T>(xs: seq<T>, f: T -> bool): nat {
    if xs == [] then 0 else (if f(xs[0]) then 1 else 0) + CountBy(xs[1..], f)
  }

  lemma {:induction false} CountByConcat<T>(xs: seq<T>, ys: seq<T>, f: T -> bool)
    ensures CountBy(xs + ys, f) == CountBy(xs, f) + CountBy(ys, f)
  {
    if xs == [] {
      assert xs + ys == ys;
    } else {
      assert (xs + ys)[1..] == xs[1..] + ys;
      CountByConcat(xs[1..], ys, f);
    }
  }

  lemma {:induction false} CountByPositive<T>(xs: seq<T>, f: T -> bool)
    ensures CountBy(xs, f) > 0 <==> exists x :: x in xs && f(x)
  {
    if xs != [] {
      CountByPositive(xs[1..], f);
      assert xs == [xs[0]] + xs[1..];
    }
  }

  /** A count does not depend on the order either. */
  lemma {:induction false} CountByPermutation<T>(xs: seq<T>, ys: seq<T>, f: T -> bool)
    requires multiset(xs) == multiset(ys)
    ensures CountBy(xs, f) == CountBy(ys, f)
  {
    if xs == [] {
      assert |ys| == |multiset(ys)| == 0;
    } else {
      var left, right := MatchHead(xs, ys);
      CountByPermutation(xs[1..], left + right, f);
      CountByConcat(left, right, f);
      CountByConcat(left, [xs[0]] + right, f);
    }
  }
}
