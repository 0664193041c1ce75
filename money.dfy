/** Monetary amounts are exact reals; the Java code rounds them to cents with
    `Math.round(100 * x) / 100.0`, which is rounding half up. */
module Money {

  /** x is a whole number of cents. */
  predicate IsCents(x: real) {
    (100.0 * x).Floor as real == 100.0 * x
  }

  /** Round half up to cents: the unique cent value c with c - 0.005 <= x < c + 0.005. */
  function RoundCents(x: real): (r: real)
    ensures IsCents(r)
    ensures r - 0.005 <= x < r + 0.005
  {
    var n := (100.0 * x + 0.5).Floor;
    assert 100.0 * (n as real / 100.0) == n as real;
    n as real / 100.0
  }

  /** The two conditions of RoundCents pin its result down: nothing else is a
      cent value within half a cent (half-open) of x. */
  lemma RoundCentsUnique(x: real, c: real)
    requires IsCents(c)
    requires c - 0.005 <= x < c + 0.005
    ensures RoundCents(x) == c
  {
    var r := RoundCents(x);
    var a := (100.0 * c).Floor;
    var b := (100.0 * r).Floor;
    assert a as real == 100.0 * c && b as real == 100.0 * r;
    assert -1 < a - b < 1;
    assert a == b;
  }

  /** Rounding a value that already is a whole number of cents changes nothing. */
  lemma RoundCentsIdempotent(x: real)
    requires IsCents(x)
    ensures RoundCents(x) == x
  {
    RoundCentsUnique(x, x);
  }

  /** Rounding preserves order. */
  lemma RoundCentsMonotonic(x: real, y: real)
    requires x <= y
    ensures RoundCents(x) <= RoundCents(y)
  {
    var a := (100.0 * x + 0.5).Floor;
    var b := (100.0 * y + 0.5).Floor;
    assert a as real <= 100.0 * y + 0.5;
    assert a <= b;
  }

  /** A sum of cent values is a cent value, so it needs no further rounding. */
  lemma SumOfCents(x: real, y: real)
    requires IsCents(x) && IsCents(y)
    ensures IsCents(x + y)
  {
    var a := (100.0 * x).Floor;
    var b := (100.0 * y).Floor;
    assert 100.0 * (x + y) == (a + b) as real;
  }
}
