/**
 * Money on exact reals: the cent rounding the balance-payment guard uses
 * (`Math.round(x * 100) / 100`), the two-decimal rendering the payment
 * notes use (`toFixed(2)`), and the sum a `reduce((sum, v) => sum + v, 0)`
 * computes.
 */
module Money {
  import opened Text

  /** `Math.round(x * 100) / 100`: halves round up, towards +infinity. */
  function Round2(x: real): real {
    (x * 100.0 + 0.5).Floor as real / 100.0
  }

  lemma FloorBounds(y: real)
    ensures y - 1.0 < y.Floor as real <= y
  {
  }

  lemma FloorMonotone(p: real, q: real)
    requires p <= q
    ensures p.Floor <= q.Floor
  {
    FloorBounds(p);
    FloorBounds(q);
  }

  /** The rounded value is within half a cent of `x`. */
  lemma Round2Close(x: real)
    ensures x - 0.005 < Round2(x) <= x + 0.005
  {
    var y := x * 100.0 + 0.5;
    FloorBounds(y);
    assert Round2(x) == y.Floor as real / 100.0;
  }

  lemma Round2Monotone(a: real, b: real)
    requires a <= b
    ensures Round2(a) <= Round2(b)
  {
    FloorMonotone(a * 100.0 + 0.5, b * 100.0 + 0.5);
  }

  /** A whole number of cents is left as it is. */
  lemma Round2OfCents(c: int)
    ensures Round2(c as real / 100.0) == c as real / 100.0
  {
    var y := (c as real / 100.0) * 100.0 + 0.5;
    assert y == c as real + 0.5;
    FloorBounds(y);
    assert y.Floor == c;
  }

  /** What the overpayment guard lets through: when the rounded sum is not
    * above the rounded total, the exact sum is less than a cent above the
    * exact total. */
  lemma Round2NotAboveMeansWithinCent(a: real, b: real)
    requires Round2(a) <= Round2(b)
    ensures a < b + 0.01
  {
    Round2Close(a);
    Round2Close(b);
  }

  /** The number of whole cents `toFixed(2)` prints for a non-negative value:
    * the nearest one, the larger on a tie. */
  function Cents(x: real): (c: nat)
    requires x >= 0.0
    ensures c as real / 100.0 == Round2(x)
  {
    (x * 100.0 + 0.5).Floor
  }

  /** `x.toFixed(2)` on an exact value: an optional minus sign, the whole
    * part, a point and exactly two decimals. */
  function Fixed2(x: real): string {
    if x < 0.0 then "-" + UnsignedFixed2(-x) else UnsignedFixed2(x)
  }

  function UnsignedFixed2(x: real): string
    requires x >= 0.0
  {
    var c := Cents(x);
    NatToDigits(c / 100) + "." + PadStart(NatToDigits(c % 100), 2, '0')
  }

  /** The printed decimals are always two digits. */
  lemma Fixed2Shape(x: real)
    requires x >= 0.0
    ensures var s := Fixed2(x);
            |s| >= 4 && s[|s| - 3] == '.' && IsDigit(s[|s| - 2]) && IsDigit(s[|s| - 1])
  {
    var c := Cents(x);
    var d := NatToDigits(c % 100);
    assert Fixed2(x) == NatToDigits(c / 100) + "." + PadStart(d, 2, '0');
    assert |d| <= 2 by {
      if c % 100 >= 10 {
        assert NatToDigits(c % 100) == NatToDigits(c % 100 / 10) + [DigitChar(c % 100 % 10)];
      }
    }
  }

  /** `xs.reduce((sum, v) => sum + v, 0)` */
  function Sum(xs: seq<real>): real
    decreases |xs|
  {
    if xs == [] then 0.0 else Sum(xs[..|xs| - 1]) + xs[|xs| - 1]
  }

  lemma {:induction false} SumConcat(a: seq<real>, b: seq<real>)
    ensures Sum(a + b) == Sum(a) + Sum(b)
    decreases |b|
  {
    if b == [] {
      assert a + b == a;
    } else {
      var b' := b[..|b| - 1];
      SumConcat(a, b');
      assert (a + b)[..|a + b| - 1] == a + b';
    }
  }

  /** A sum of non-negative amounts is non-negative. */
  lemma {:induction false} SumNonNegative(xs: seq<real>)
    requires forall i :: 0 <= i < |xs| ==> xs[i] >= 0.0
    ensures Sum(xs) >= 0.0
    decreases |xs|
  {
    if xs != [] {
      SumNonNegative(xs[..|xs| - 1]);
    }
  }
}
