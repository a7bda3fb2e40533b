/** Exact arithmetic on the two-component vectors of the easy variables and on the
    linear expressions `sum_i coeff_i * weight_i` that the master problem is built from. */
module Vectors {

  /** A value for each of the two easy variables x1, x2. */
  type Vec2 = v: seq<real> | |v| == 2 witness [0.0, 0.0]

  /** The inner product of two vectors (`np.dot` on two 2-vectors). */
  function Dot(u: Vec2, v: Vec2): real
  {
    u[0] * v[0] + u[1] * v[1]
  }

  /** The linear expression `sum_i coeffs[i] * lams[i]`, added up from index 0 upwards. */
  function Weighted(coeffs: seq<real>, lams: seq<real>): real
    requires |coeffs| == |lams|
    decreases |lams|
  {
    if |lams| == 0 then 0.0
    else Weighted(coeffs[..|coeffs| - 1], lams[..|lams| - 1]) + coeffs[|coeffs| - 1] * lams[|lams| - 1]
  }

  /** A row applied to the pair of linear expressions `(sum_i u[i] * lams[i], sum_i v[i] * lams[i])`
      equals the linear expression whose coefficients are that row applied to each pair
      `(u[i], v[i])`. */
  lemma {:induction false} WeightedDot(a: Vec2, w: seq<real>, u: seq<real>, v: seq<real>, lams: seq<real>)
    requires |w| == |u| == |v| == |lams|
    requires forall i :: 0 <= i < |w| ==> w[i] == Dot(a, [u[i], v[i]])
    ensures Weighted(w, lams) == Dot(a, [Weighted(u, lams), Weighted(v, lams)])
    decreases |lams|
  {
    if |lams| > 0 {
      var n := |lams| - 1;
      WeightedDot(a, w[..n], u[..n], v[..n], lams[..n]);
      DotStep(a, Weighted(u[..n], lams[..n]), Weighted(v[..n], lams[..n]), u[n], v[n], lams[n]);
    }
  }

  /** The coefficient r repeated n times. */
  function Repeat(n: nat, r: real): seq<real>
  {
    seq(n, i => r)
  }

  /** With every coefficient 5, the linear expression is 5 times the plain sum of the
      weights. */
  lemma {:induction false} WeightedFive(lams: seq<real>)
    ensures Weighted(Repeat(|lams|, 5.0), lams) == 5.0 * Weighted(Repeat(|lams|, 1.0), lams)
    decreases |lams|
  {
    if |lams| > 0 {
      var n := |lams| - 1;
      WeightedFive(lams[..n]);
      assert Repeat(|lams|, 5.0)[..n] == Repeat(n, 5.0);
      assert Repeat(|lams|, 1.0)[..n] == Repeat(n, 1.0);
    }
  }

  /** A row applied to a vector plus a scaled vector. */
  lemma DotStep(a: Vec2, p: real, q: real, s: real, t: real, l: real)
    ensures Dot(a, [p + s * l, q + t * l]) == Dot(a, [p, q]) + Dot(a, [s, t]) * l
  {
  }

  /** Over non-negative weights, a linear expression is monotone in its coefficients. */
  lemma {:induction false} WeightedMonotone(u: seq<real>, v: seq<real>, lams: seq<real>)
    requires |u| == |v| == |lams|
    requires forall i :: 0 <= i < |lams| ==> lams[i] >= 0.0 && u[i] <= v[i]
    ensures Weighted(u, lams) <= Weighted(v, lams)
    decreases |lams|
  {
    if |lams| > 0 {
      var n := |lams| - 1;
      WeightedMonotone(u[..n], v[..n], lams[..n]);
      MulMonotone(u[n], v[n], lams[n]);
    }
  }

  /** Non-negative coefficients and non-negative weights give a non-negative expression. */
  lemma {:induction false} WeightedNonNegative(u: seq<real>, lams: seq<real>)
    requires |u| == |lams|
    requires forall i :: 0 <= i < |lams| ==> lams[i] >= 0.0 && u[i] >= 0.0
    ensures Weighted(u, lams) >= 0.0
    decreases |lams|
  {
    if |lams| > 0 {
      var n := |lams| - 1;
      WeightedNonNegative(u[..n], lams[..n]);
      MulMonotone(0.0, u[n], lams[n]);
    }
  }

  /** Multiplying by a non-negative factor keeps the order. */
  lemma MulMonotone(x: real, y: real, l: real)
    requires x <= y && l >= 0.0
    ensures x * l <= y * l
  {
  }
}
