/** Facts about division and multiplication of reals by a positive quantity, proved once
    so that the geometry proofs need no nonlinear reasoning of their own. */
module RealFacts {

  lemma MulDivCancel(a: real, w: real)
    requires w > 0.0
    ensures a * w / w == a
  {
    var c := a * w / w;
    assert c * w == a * w;
    assert (c - a) * w == 0.0;
  }

  lemma DivMulCancel(a: real, w: real)
    requires w > 0.0
    ensures a / w * w == a
  {
  }

  lemma DivMonotone(a: real, b: real, w: real)
    requires w > 0.0 && a <= b
    ensures a / w <= b / w
  {
    var qa, qb := a / w, b / w;
    assert qa * w == a && qb * w == b;
  }

  lemma DivInUnit(d: real, w: real)
    requires w > 0.0 && 0.0 <= d <= w
    ensures 0.0 <= d / w <= 1.0
  {
    DivMonotone(0.0, d, w);
    DivMonotone(d, w, w);
  }

  lemma MulMonotone(a: real, b: real, k: real)
    requires a <= b && k >= 0.0
    ensures a * k <= b * k
  {
    assert (b - a) * k >= 0.0;
  }

  lemma FractionOfSpan(f: real, span: real)
    requires 0.0 <= f <= 1.0 && span >= 0.0
    ensures 0.0 <= f * span <= span
  {
    MulMonotone(0.0, f, span);
    MulMonotone(f, 1.0, span);
  }
}
