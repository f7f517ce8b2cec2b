/**
 * Sums over rows, the `reduce`/`+=` accumulations and SQL `SUM` the modules use.
 * Amounts are exact reals: the floating-point rounding of the source is not modelled.
 */
module Money {

  /** Σ f(x) over the rows, in order. */
  function SumOf<T>(rows: seq<T>, f: T -> real): real
  {
    if rows == [] then 0.0 else SumOf(rows[..|rows| - 1], f) + f(rows[|rows| - 1])
  }

  lemma {:induction false} SumOfAppend<T>(rows: seq<T>, x: T, f: T -> real)
    ensures SumOf(rows + [x], f) == SumOf(rows, f) + f(x)
  {
    assert (rows + [x])[..|rows + [x]| - 1] == rows;
  }

  /** One more row of a running sum over a prefix. */
  lemma {:induction false} SumOfStep<T>(rows: seq<T>, k: nat, f: T -> real)
    requires k < |rows|
    ensures SumOf(rows[..k + 1], f) == SumOf(rows[..k], f) + f(rows[k])
  {
    assert rows[..k + 1] == rows[..k] + [rows[k]];
    SumOfAppend(rows[..k], rows[k], f);
  }

  lemma {:induction false} SumOfConcat<T>(a: seq<T>, b: seq<T>, f: T -> real)
    ensures SumOf(a + b, f) == SumOf(a, f) + SumOf(b, f)
    decreases |b|
  {
    if b == [] {
      assert a + b == a;
    } else {
      var b' := b[..|b| - 1];
      assert a + b == (a + b') + [b[|b| - 1]];
      SumOfConcat(a, b', f);
      SumOfAppend(a + b', b[|b| - 1], f);
      SumOfAppend(b', b[|b| - 1], f);
      assert b' + [b[|b| - 1]] == b;
    }
  }

  lemma {:induction false} SumOfNonNegative<T>(rows: seq<T>, f: T -> real)
    requires forall i :: 0 <= i < |rows| ==> f(rows[i]) >= 0.0
    ensures SumOf(rows, f) >= 0.0
  {
    if rows != [] {
      SumOfNonNegative(rows[..|rows| - 1], f);
    }
  }

  /** Pointwise f ≤ g gives ΣF ≤ ΣG. */
  lemma {:induction false} SumOfMonotone<T>(rows: seq<T>, f: T -> real, g: T -> real)
    requires forall i :: 0 <= i < |rows| ==> f(rows[i]) <= g(rows[i])
    ensures SumOf(rows, f) <= SumOf(rows, g)
  {
    if rows != [] {
      SumOfMonotone(rows[..|rows| - 1], f, g);
    }
  }

  /** Σ (f − g) = Σ f − Σ g. */
  lemma {:induction false} SumOfDifference<T>(rows: seq<T>, f: T -> real, g: T -> real, h: T -> real)
    requires forall x :: h(x) == f(x) - g(x)
    ensures SumOf(rows, h) == SumOf(rows, f) - SumOf(rows, g)
  {
    if rows != [] {
      SumOfDifference(rows[..|rows| - 1], f, g, h);
    }
  }

  /** The sum only depends on the values f takes on the listed rows. */
  lemma {:induction false} SumOfCongruent<T>(rows: seq<T>, f: T -> real, g: T -> real)
    requires forall i :: 0 <= i < |rows| ==> f(rows[i]) == g(rows[i])
    ensures SumOf(rows, f) == SumOf(rows, g)
  {
    if rows != [] {
      SumOfCongruent(rows[..|rows| - 1], f, g);
    }
  }

  /** Two lists of the same length whose rows contribute the same values, position by position, have the same sum. */
  lemma {:induction false} SumOfPointwise<T, U>(a: seq<T>, b: seq<U>, f: T -> real, g: U -> real)
    requires |a| == |b| && forall i :: 0 <= i < |a| ==> f(a[i]) == g(b[i])
    ensures SumOf(a, f) == SumOf(b, g)
  {
    if a != [] {
      SumOfPointwise(a[..|a| - 1], b[..|b| - 1], f, g);
    }
  }

  /** Rows on which f vanishes contribute nothing. */
  lemma {:induction false} SumOfZero<T>(rows: seq<T>, f: T -> real)
    requires forall i :: 0 <= i < |rows| ==> f(rows[i]) == 0.0
    ensures SumOf(rows, f) == 0.0
  {
    if rows != [] {
      SumOfZero(rows[..|rows| - 1], f);
    }
  }
}
