/** Sums over sequences of reals, and the algebra the regression formulas rest on.
    A sum is a left fold from 0.0 with an accumulator, the way an iterator's
    `sum()` adds its elements one at a time. */
module Sums {

  /** acc + s[0] + s[1] + … , accumulated from the left. */
  function Fold(acc: real, s: seq<real>): real
    decreases |s|
  {
    if |s| == 0 then acc else Fold(acc + s[0], s[1..])
  }

  /** Σ s[i]. */
  function Sum(s: seq<real>): real
  {
    Fold(0.0, s)
  }

  /** The element-wise products u[i]·v[i] of two sequences walked in step. */
  function Products(u: seq<real>, v: seq<real>): (p: seq<real>)
    requires |u| == |v|
    ensures |p| == |u|
  {
    seq(|u|, i requires 0 <= i < |u| => u[i] * v[i])
  }

  /** Σ u[i]·v[i]; Dot(s, s) is the sum of squares of s. */
  function Dot(u: seq<real>, v: seq<real>): real
    requires |u| == |v|
  {
    Sum(Products(u, v))
  }

  /** The element-wise differences s[i] − c. */
  function Deviations(s: seq<real>, c: real): (d: seq<real>)
    ensures |d| == |s|
  {
    seq(|s|, i requires 0 <= i < |s| => s[i] - c)
  }

  /** n·Σs² − (Σs)², which is n² times the population variance of s. */
  function Spread(s: seq<real>): real
  {
    |s| as real * Dot(s, s) - Sum(s) * Sum(s)
  }

  /** All elements are equal. */
  predicate Constant(s: seq<real>)
  {
    forall i :: 0 <= i < |s| ==> s[i] == s[0]
  }

  /** The reals 0, 1, …, n − 1. */
  function Indices(n: nat): (s: seq<real>)
    ensures |s| == n
  {
    seq(n, i requires 0 <= i < n => i as real)
  }

  /** Folding a sequence is folding all but its last element, then adding it. */
  lemma {:induction false} FoldSnoc(acc: real, s: seq<real>)
    requires |s| > 0
    decreases |s|
    ensures Fold(acc, s) == Fold(acc, s[..|s| - 1]) + s[|s| - 1]
  {
    if |s| > 1 {
      var t := s[1..];
      FoldSnoc(acc + s[0], t);
      assert s[..|s| - 1][1..] == t[..|t| - 1];
    }
  }

  lemma SumSnoc(s: seq<real>)
    requires |s| > 0
    ensures Sum(s) == Sum(s[..|s| - 1]) + s[|s| - 1]
  {
    FoldSnoc(0.0, s);
  }

  lemma DotSnoc(u: seq<real>, v: seq<real>)
    requires |u| == |v| > 0
    ensures var k := |u| - 1;
            Dot(u, v) == Dot(u[..k], v[..k]) + u[k] * v[k]
  {
    var k := |u| - 1;
    var p, q := Products(u, v), Products(u[..k], v[..k]);
    forall i | 0 <= i < k ensures p[..k][i] == q[i] {
      assert u[..k][i] == u[i] && v[..k][i] == v[i];
    }
    assert p[..k] == q;
    SumSnoc(p);
  }

  /** The sum of element-wise differences is the difference of the sums. */
  lemma {:induction false} SumSub(u: seq<real>, v: seq<real>, r: seq<real>)
    requires |u| == |v| == |r|
    requires forall i :: 0 <= i < |r| ==> r[i] == u[i] - v[i]
    ensures Sum(r) == Sum(u) - Sum(v)
  {
    if |r| > 0 {
      var k := |r| - 1;
      SumSub(u[..k], v[..k], r[..k]);
      SumSnoc(r);
      SumSnoc(u);
      SumSnoc(v);
    }
  }

  /** The affine map t ↦ a·t + b. */
  function Affine(a: real, b: real, t: real): real
  {
    a * t + b
  }

  /** Summing a·s[i] + b over s. */
  lemma {:induction false} SumAffine(s: seq<real>, r: seq<real>, a: real, b: real)
    requires |s| == |r|
    requires forall i :: 0 <= i < |r| ==> r[i] == Affine(a, b, s[i])
    ensures Sum(r) == a * Sum(s) + |s| as real * b
  {
    if |r| > 0 {
      var k := |r| - 1;
      SumAffine(s[..k], r[..k], a, b);
      SumSnoc(r);
      SumSnoc(s);
      AffineStep(Sum(r), Sum(r[..k]), r[k], Sum(s), Sum(s[..k]), s[k], a, b, k as real, |s| as real);
    }
  }

  /** Dot is subtractive in its second argument. */
  lemma {:induction false} DotSub(w: seq<real>, u: seq<real>, v: seq<real>, r: seq<real>)
    requires |w| == |u| == |v| == |r|
    requires forall i :: 0 <= i < |r| ==> r[i] == u[i] - v[i]
    ensures Dot(w, r) == Dot(w, u) - Dot(w, v)
  {
    if |r| > 0 {
      var k := |r| - 1;
      DotSub(w[..k], u[..k], v[..k], r[..k]);
      DotSnoc(w, r);
      DotSnoc(w, u);
      DotSnoc(w, v);
      SubStep(Dot(w, r), Dot(w[..k], r[..k]), r[k], Dot(w, u), Dot(w[..k], u[..k]), u[k],
              Dot(w, v), Dot(w[..k], v[..k]), v[k], w[k]);
    }
  }

  /** Dot of w with a·s[i] + b. */
  lemma DotAffine(w: seq<real>, s: seq<real>, r: seq<real>, a: real, b: real)
    requires |w| == |s| == |r|
    requires forall i :: 0 <= i < |r| ==> r[i] == Affine(a, b, s[i])
    ensures Dot(w, r) == a * Dot(w, s) + b * Sum(w)
  {
    var t := seq(|s|, i requires 0 <= i < |s| => a * s[i]);
    DotScale(w, s, t, a);
    DotShift(w, t, r, b);
  }

  /** Dot of w with a·s[i]. */
  lemma {:induction false} DotScale(w: seq<real>, s: seq<real>, r: seq<real>, a: real)
    requires |w| == |s| == |r|
    requires forall i :: 0 <= i < |r| ==> r[i] == a * s[i]
    ensures Dot(w, r) == a * Dot(w, s)
  {
    if |r| > 0 {
      var k := |r| - 1;
      DotScale(w[..k], s[..k], r[..k], a);
      DotSnoc(w, r);
      DotSnoc(w, s);
      ScaleStep(Dot(w, r), Dot(w[..k], r[..k]), r[k], Dot(w, s), Dot(w[..k], s[..k]), s[k], a, w[k]);
    }
  }

  /** Dot of w with s[i] + b. */
  lemma {:induction false} DotShift(w: seq<real>, s: seq<real>, r: seq<real>, b: real)
    requires |w| == |s| == |r|
    requires forall i :: 0 <= i < |r| ==> r[i] == s[i] + b
    ensures Dot(w, r) == Dot(w, s) + b * Sum(w)
  {
    if |r| > 0 {
      var k := |r| - 1;
      DotShift(w[..k], s[..k], r[..k], b);
      DotShiftStep(w, s, r, b);
    }
  }

  lemma DotShiftStep(w: seq<real>, s: seq<real>, r: seq<real>, b: real)
    requires |w| == |s| == |r| > 0
    requires r[|r| - 1] == s[|s| - 1] + b
    requires var k := |r| - 1; Dot(w[..k], r[..k]) == Dot(w[..k], s[..k]) + b * Sum(w[..k])
    ensures Dot(w, r) == Dot(w, s) + b * Sum(w)
  {
    var k := |r| - 1;
    DotSnoc(w, r);
    DotSnoc(w, s);
    SumSnoc(w);
    ShiftStep(Dot(w, r), Dot(w[..k], r[..k]), r[k], Dot(w, s), Dot(w[..k], s[..k]), s[k],
              b, Sum(w), Sum(w[..k]), w[k]);
  }

  lemma DotSymmetric(u: seq<real>, v: seq<real>)
    requires |u| == |v|
    ensures Dot(u, v) == Dot(v, u)
  {
    assert Products(u, v) == Products(v, u);
  }

  lemma {:induction false} SumOfSquaresNonNegative(s: seq<real>)
    ensures Dot(s, s) >= 0.0
  {
    if |s| > 0 {
      var k := |s| - 1;
      DotSnoc(s, s);
      SumOfSquaresNonNegative(s[..k]);
      SquareSumNonNegative(Dot(s, s), Dot(s[..k], s[..k]), s[k]);
    }
  }

  /** A sum of squares vanishes exactly when every term does. */
  lemma {:induction false} SumOfSquaresZero(s: seq<real>)
    ensures Dot(s, s) == 0.0 <==> forall i :: 0 <= i < |s| ==> s[i] == 0.0
  {
    if |s| > 0 {
      var k := |s| - 1;
      var front := s[..k];
      DotSnoc(s, s);
      SumOfSquaresZero(front);
      SumOfSquaresNonNegative(front);
      SquareSumZero(Dot(s, s), Dot(front, front), s[k]);
      if Dot(s, s) == 0.0 {
        forall i | 0 <= i < |s| ensures s[i] == 0.0 {
          if i < k { assert s[i] == front[i]; }
        }
      }
    }
  }

  /** A sum of squares is at least any one of its terms. */
  lemma {:induction false} SumOfSquaresAtLeastTerm(s: seq<real>, j: nat)
    requires j < |s|
    ensures Dot(s, s) >= s[j] * s[j]
  {
    var k := |s| - 1;
    var front := s[..k];
    DotSnoc(s, s);
    SumOfSquaresNonNegative(front);
    if j == k {
      SquareSumAtLeast(Dot(s, s), Dot(front, front), s[k], 0.0);
    } else {
      SumOfSquaresAtLeastTerm(front, j);
      assert front[j] == s[j];
      SquareSumAtLeast(Dot(s, s), Dot(front, front), s[k], s[j] * s[j]);
    }
  }

  lemma DeviationsPrefix(s: seq<real>, c: real, k: nat)
    requires k <= |s|
    ensures Deviations(s, c)[..k] == Deviations(s[..k], c)
  {
  }

  /** Σ (s[i] − c)² = Σs² − 2c·Σs + n·c². */
  lemma {:induction false} DeviationsExpansion(s: seq<real>, c: real)
    ensures Dot(Deviations(s, c), Deviations(s, c)) == Dot(s, s) - 2.0 * c * Sum(s) + |s| as real * c * c
  {
    if |s| > 0 {
      var k := |s| - 1;
      var d := Deviations(s, c);
      DeviationsPrefix(s, c, k);
      DeviationsExpansion(s[..k], c);
      DotSnoc(d, d);
      DotSnoc(s, s);
      SumSnoc(s);
      ExpandStep(Dot(d, d), Dot(d[..k], d[..k]), d[k], s[k], c,
                 Dot(s[..k], s[..k]), Sum(s[..k]), k as real,
                 Dot(s, s), Sum(s), |s| as real);
    }
  }

  /** Appending one element adds to the spread the squared deviations of the
      earlier elements from it. */
  lemma SpreadStep(s: seq<real>)
    requires |s| > 0
    ensures var k := |s| - 1;
            Spread(s) == Spread(s[..k]) + Dot(Deviations(s[..k], s[k]), Deviations(s[..k], s[k]))
  {
    var k := |s| - 1;
    var front, a := s[..k], s[k];
    var d := Deviations(front, a);
    DeviationsExpansion(front, a);
    DotSnoc(s, s);
    SumSnoc(s);
    SpreadStepAlgebra(Spread(s), Spread(front), Dot(s, s), Dot(front, front), Sum(s), Sum(front),
                      a, k as real, |s| as real, Dot(d, d));
  }

  lemma {:induction false} SpreadNonNegative(s: seq<real>)
    ensures Spread(s) >= 0.0
  {
    if |s| > 0 {
      var k := |s| - 1;
      SpreadStep(s);
      SpreadNonNegative(s[..k]);
      SumOfSquaresNonNegative(Deviations(s[..k], s[k]));
    }
  }

  /** The spread is zero exactly when all elements are equal. */
  lemma {:induction false} SpreadZeroIffConstant(s: seq<real>)
    ensures Spread(s) == 0.0 <==> Constant(s)
  {
    if |s| > 0 {
      var k := |s| - 1;
      var front, a := s[..k], s[k];
      var d := Deviations(front, a);
      SpreadStep(s);
      SpreadZeroIffConstant(front);
      SpreadNonNegative(front);
      SumOfSquaresNonNegative(d);
      SumOfSquaresZero(d);
      if Spread(s) == 0.0 {
        assert forall i :: 0 <= i < k ==> d[i] == 0.0;
        forall i | 0 <= i < |s| ensures s[i] == a {
          if i < k { assert d[i] == front[i] - a; }
        }
      }
      if Constant(s) {
        forall i | 0 <= i < k ensures d[i] == 0.0 {
          assert front[i] == s[i];
        }
        if k > 0 {
          assert forall i :: 0 <= i < k ==> front[i] == front[0] by {
            forall i | 0 <= i < k ensures front[i] == front[0] {
              assert front[i] == s[i] && front[0] == s[0];
            }
          }
        }
      }
    }
  }

  /** n times the squared deviations from the mean c (n·c = Σs) is the spread. */
  lemma SpreadAsDeviationsFromMean(s: seq<real>, c: real)
    requires |s| > 0 && |s| as real * c == Sum(s)
    ensures |s| as real * Dot(Deviations(s, c), Deviations(s, c)) == Spread(s)
  {
    var d := Deviations(s, c);
    DeviationsExpansion(s, c);
    CenteredExpansion(Dot(d, d), Dot(s, s), Sum(s), |s| as real, c, Spread(s));
  }

  /** The unit-spaced positions 0..n−1 have zero spread for one point and a
      spread of at least 1 for two or more. */
  lemma SpreadOfIndices(n: nat)
    ensures n <= 1 ==> Spread(Indices(n)) == 0.0
    ensures n >= 2 ==> Spread(Indices(n)) >= 1.0
  {
    if n == 1 {
      SpreadZeroIffConstant(Indices(1));
    } else if n >= 2 {
      var s := Indices(n);
      var k := n - 1;
      var d := Deviations(s[..k], s[k]);
      SpreadStep(s);
      SpreadNonNegative(s[..k]);
      SumOfSquaresAtLeastTerm(d, 0);
      assert d[0] == 0.0 - k as real;
      AtLeastOneSquared(d[0]);
    }
  }

  // Identities and inequalities over plain reals, one per proof step above,
  // each stated in exactly the terms its caller has in hand.

  lemma AffineStep(sr: real, sr': real, rk: real, ss: real, ss': real, sk: real,
                   a: real, b: real, m: real, n: real)
    requires sr == sr' + rk && ss == ss' + sk && n == m + 1.0
    requires rk == Affine(a, b, sk)
    requires sr' == a * ss' + m * b
    ensures sr == a * ss + n * b
  {
  }

  lemma SubStep(dr: real, dr': real, rk: real, du: real, du': real, uk: real,
                dv: real, dv': real, vk: real, wk: real)
    requires dr == dr' + wk * rk && du == du' + wk * uk && dv == dv' + wk * vk
    requires rk == uk - vk
    requires dr' == du' - dv'
    ensures dr == du - dv
  {
    assert wk * rk == wk * uk - wk * vk;
  }

  lemma ScaleStep(dr: real, dr': real, rk: real, ds: real, ds': real, sk: real, a: real, wk: real)
    requires dr == dr' + wk * rk && ds == ds' + wk * sk
    requires rk == a * sk && dr' == a * ds'
    ensures dr == a * ds
  {
    assert wk * rk == a * (wk * sk);
  }

  lemma ShiftStep(dr: real, dr': real, rk: real, ds: real, ds': real, sk: real,
                  b: real, sw: real, sw': real, wk: real)
    requires dr == dr' + wk * rk && ds == ds' + wk * sk && sw == sw' + wk
    requires rk == sk + b && dr' == ds' + b * sw'
    ensures dr == ds + b * sw
  {
    assert wk * rk == wk * sk + b * wk;
  }

  lemma ExpandStep(dd: real, dd': real, e: real, a: real, c: real,
                   q: real, t: real, m: real, q1: real, t1: real, n: real)
    requires dd == dd' + e * e && e == a - c
    requires dd' == q - 2.0 * c * t + m * c * c
    requires q1 == q + a * a && t1 == t + a && n == m + 1.0
    ensures dd == q1 - 2.0 * c * t1 + n * c * c
  {
  }

  lemma SpreadStepAlgebra(sp: real, sp': real, q: real, q': real, t: real, t': real,
                          a: real, m: real, n: real, dd: real)
    requires sp == n * q - t * t && sp' == m * q' - t' * t'
    requires q == q' + a * a && t == t' + a && n == m + 1.0
    requires dd == q' - 2.0 * a * t' + m * a * a
    ensures sp == sp' + dd
  {
  }

  lemma CenteredExpansion(dd: real, q: real, t: real, n: real, c: real, sp: real)
    requires n * c == t && sp == n * q - t * t
    requires dd == q - 2.0 * c * t + n * c * c
    ensures n * dd == sp
  {
    calc {
      n * dd;
      n * q - 2.0 * (n * c) * t + (n * c) * (n * c);
      n * q - t * t;
    }
  }

  lemma SquareSumNonNegative(t: real, t': real, x: real)
    requires t == t' + x * x && t' >= 0.0
    ensures t >= 0.0
  {
  }

  lemma SquareSumZero(t: real, t': real, x: real)
    requires t == t' + x * x && t' >= 0.0
    ensures t == 0.0 <==> t' == 0.0 && x == 0.0
  {
    if t == 0.0 {
      SquareSumNonNegative(x * x, 0.0, x);
      ProductZero(x, x);
    }
  }

  /** Adding a square keeps a lower bound that is itself a square or zero. */
  lemma SquareSumAtLeast(t: real, t': real, x: real, lo: real)
    requires t == t' + x * x && t' >= lo && lo >= 0.0
    ensures t >= lo && (lo == 0.0 ==> t >= x * x)
  {
    SquareSumNonNegative(x * x, 0.0, x);
  }

  lemma ProductZero(x: real, y: real)
    requires x * y == 0.0
    ensures x == 0.0 || y == 0.0
  {
  }

  lemma AtLeastOneSquared(x: real)
    requires x <= -1.0
    ensures x * x >= 1.0
  {
  }
}
