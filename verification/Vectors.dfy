/** Real vectors and their sums, with the few facts about reals the proofs lean on. Sums run over
    the first `m` entries, from index 0 upwards, as the firmware's loops do. */
module Vectors {
  type Vec = seq<real>

  function Sum(s: Vec, m: nat): real
    requires m <= |s|
  {
    if m == 0 then 0.0 else Sum(s, m - 1) + s[m - 1]
  }

  function Times(a: Vec, b: Vec): (t: Vec)
    requires |a| == |b|
    ensures |t| == |a|
  {
    seq(|a|, i requires 0 <= i < |a| => a[i] * b[i])
  }

  function Minus(a: Vec, b: Vec): (t: Vec)
    requires |a| == |b|
    ensures |t| == |a|
  {
    seq(|a|, i requires 0 <= i < |a| => a[i] - b[i])
  }

  function Squares(a: Vec): (t: Vec)
    ensures |t| == |a|
  {
    seq(|a|, i requires 0 <= i < |a| => a[i] * a[i])
  }

  ghost function Scaled(c: real, s: Vec): (t: Vec)
    ensures |t| == |s|
  {
    seq(|s|, i requires 0 <= i < |s| => c * s[i])
  }

  function Const(n: nat, v: real): (t: Vec)
    ensures |t| == n
  {
    seq(n, i => v)
  }

  /** All zero except at `i`. */
  ghost function Unit(n: nat, i: nat, v: real): (t: Vec)
    ensures |t| == n
  {
    seq(n, j => if j == i then v else 0.0)
  }

  function Total(s: Vec): real {
    Sum(s, |s|)
  }

  function Dot(a: Vec, b: Vec): real
    requires |a| == |b|
  {
    Total(Times(a, b))
  }

  /** The scalar product, built up entry by entry. */
  lemma DotIs(a: Vec, b: Vec, x: real, y: real)
    requires |a| == |b|
    ensures Dot([], []) == 0.0
    ensures Dot(a + [x], b + [y]) == Dot(a, b) + x * y
  {
    SumPrefix(Times(a + [x], b + [y]), Times(a, b), |a|);
  }

  // Sums.

  lemma {:induction false} SumPrefix(s: Vec, t: Vec, m: nat)
    requires m <= |s| && m <= |t|
    requires forall i :: 0 <= i < m ==> s[i] == t[i]
    ensures Sum(s, m) == Sum(t, m)
  {
    if m > 0 {
      SumPrefix(s, t, m - 1);
    }
  }

  lemma {:induction false} SumAdd(s: Vec, t: Vec, u: Vec, m: nat)
    requires m <= |s| && m <= |t| && m <= |u|
    requires forall i :: 0 <= i < m ==> u[i] == s[i] + t[i]
    ensures Sum(u, m) == Sum(s, m) + Sum(t, m)
  {
    if m > 0 {
      SumAdd(s, t, u, m - 1);
    }
  }

  lemma {:induction false} SumAddThree(s: Vec, t: Vec, w: Vec, u: Vec, m: nat)
    requires m <= |s| && m <= |t| && m <= |w| && m <= |u|
    requires forall i :: 0 <= i < m ==> u[i] == s[i] + t[i] + w[i]
    ensures Sum(u, m) == Sum(s, m) + Sum(t, m) + Sum(w, m)
  {
    if m > 0 {
      SumAddThree(s, t, w, u, m - 1);
    }
  }

  lemma {:induction false} SumScaled(c: real, s: Vec, m: nat)
    requires m <= |s|
    ensures Sum(Scaled(c, s), m) == c * Sum(s, m)
  {
    if m > 0 {
      SumScaled(c, s, m - 1);
      Distribute(c, Sum(s, m - 1), s[m - 1]);
    }
  }

  lemma {:induction false} SumUnit(n: nat, i: nat, v: real, m: nat)
    requires m <= n
    ensures Sum(Unit(n, i, v), m) == if i < m then v else 0.0
  {
    if m > 0 {
      SumUnit(n, i, v, m - 1);
    }
  }

  lemma {:induction false} SumAtLeast(s: Vec, t: Vec, m: nat)
    requires m <= |s| && m <= |t|
    requires forall i :: 0 <= i < m ==> s[i] >= t[i]
    ensures Sum(s, m) >= Sum(t, m)
  {
    if m > 0 {
      SumAtLeast(s, t, m - 1);
    }
  }

  lemma SumConst(n: nat, v: real, m: nat)
    requires m <= n
    ensures Sum(Const(n, v), m) == m as real * v
  {
    if m > 0 {
      SumConst(n, v, m - 1);
      assert m as real * v == (m - 1) as real * v + v;
    }
  }

  // Products.

  lemma Distribute(m: real, a: real, b: real)
    ensures m * (a + b) == m * a + m * b
  {
  }

  lemma SameProduct(m: real, a: real, b: real)
    requires a == b
    ensures m * a == m * b
  {
  }

  lemma Positive(x: real, y: real)
    ensures x > 0.0 && y > 0.0 ==> x * y > 0.0
    ensures x >= 0.0 && y >= 0.0 ==> x * y >= 0.0
    ensures x <= 0.0 && y <= 0.0 ==> x * y >= 0.0
    ensures x < 0.0 && y < 0.0 ==> x * y > 0.0
    ensures x >= 0.0 && y <= 0.0 ==> x * y <= 0.0
  {
    assert x * y == (-x) * (-y);
    assert x * (-y) == -(x * y);
  }

  lemma ZeroProduct(x: real, y: real)
    requires x * y == 0.0
    ensures x == 0.0 || y == 0.0
  {
  }

  lemma SquareSign(x: real)
    ensures x * x >= 0.0
    ensures x * x == 0.0 ==> x == 0.0
  {
    Positive(x, x);
    if x * x == 0.0 {
      ZeroProduct(x, x);
    }
  }

  // A sum of squares.

  lemma {:induction false} SquaresNonneg(a: Vec, m: nat)
    requires m <= |a|
    ensures Sum(Times(a, a), m) >= 0.0
    ensures Sum(Times(a, a), m) == 0.0 ==> forall j :: 0 <= j < m ==> a[j] == 0.0
  {
    if m > 0 {
      SquaresNonneg(a, m - 1);
      SquareSign(a[m - 1]);
    }
  }

  /** Without entry `i` the squares still sum to something non-negative, and to zero only if
      every other entry is zero. */
  lemma SquaresWithout(a: Vec, i: nat)
    requires i < |a|
    ensures Dot(a, a) - a[i] * a[i] >= 0.0
    ensures Dot(a, a) - a[i] * a[i] == 0.0 ==> forall j :: 0 <= j < |a| && j != i ==> a[j] == 0.0
  {
    var b := a[i := 0.0];
    assert forall j :: 0 <= j < |a| && j != i ==> a[j] == b[j];
    SquaresNonneg(b, |a|);
    SumUnit(|a|, i, a[i] * a[i], |a|);
    SumAdd(Times(b, b), Unit(|a|, i, a[i] * a[i]), Times(a, a), |a|);
  }
}
