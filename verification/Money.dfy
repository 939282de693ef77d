/** Penny rounding as Python's round(x, 2) does it, over exact reals. */
module Money {

  function Abs(x: real): real {
    if x < 0.0 then -x else x
  }

  /** The nearest integer, a tie going to the even one. */
  function HalfEven(x: real): int {
    var f := x.Floor;
    var d := x - f as real;
    if d < 0.5 || (d == 0.5 && f % 2 == 0) then f else f + 1
  }

  /** `round(x, 2)`: pounds to the nearest penny, ties to the even penny. */
  function Round2(x: real): real {
    HalfEven(x * 100.0) as real / 100.0
  }

  predicate WholePence(x: real) {
    x * 100.0 == (x * 100.0).Floor as real
  }

  /** `HalfEven` is the only integer that is strictly nearest, or even and as near as any other. */
  lemma HalfEvenCharacterised(x: real, n: int)
    ensures n == HalfEven(x) <==>
            Abs(n as real - x) < 0.5 || (Abs(n as real - x) == 0.5 && n % 2 == 0)
  {
    var f := x.Floor;
    assert f as real <= x < f as real + 1.0;
    if n <= f - 1 {
      assert n as real <= f as real - 1.0;
    } else if n >= f + 2 {
      assert n as real >= f as real + 2.0;
    } else {
      assert n == f || n == f + 1;
    }
  }

  lemma HalfEvenMonotone(x: real, y: real)
    requires x <= y
    ensures HalfEven(x) <= HalfEven(y)
  {
    HalfEvenCharacterised(x, HalfEven(x));
    HalfEvenCharacterised(y, HalfEven(y));
  }

  /** Rounding to pennies is monotone. */
  lemma Round2Monotone(x: real, y: real)
    requires x <= y
    ensures Round2(x) <= Round2(y)
  {
    HalfEvenMonotone(x * 100.0, y * 100.0);
  }

  /** Rounding moves an amount by at most half a penny and gives whole pence. */
  lemma Round2Near(x: real)
    ensures Abs(Round2(x) - x) <= 0.005
    ensures WholePence(Round2(x))
  {
    HalfEvenCharacterised(x * 100.0, HalfEven(x * 100.0));
    assert Round2(x) * 100.0 == HalfEven(x * 100.0) as real;
    assert (HalfEven(x * 100.0) as real).Floor == HalfEven(x * 100.0);
  }

  /** Whole pence are left alone. */
  lemma Round2Fixed(x: real)
    requires WholePence(x)
    ensures Round2(x) == x
  {
    HalfEvenCharacterised(x * 100.0, (x * 100.0).Floor);
  }

  lemma WholePenceClosed(x: real, y: real)
    requires WholePence(x) && WholePence(y)
    ensures WholePence(x + y) && WholePence(x - y)
  {
    var a, b := (x * 100.0).Floor, (y * 100.0).Floor;
    assert (x + y) * 100.0 == (a + b) as real;
    assert (x - y) * 100.0 == (a - b) as real;
    assert ((a + b) as real).Floor == a + b;
    assert ((a - b) as real).Floor == a - b;
  }
}
