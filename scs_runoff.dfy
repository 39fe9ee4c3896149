/**
 * The SCS curve-number direct-runoff equation (USDA-NRCS National
 * Engineering Handbook, Part 630, Chapter 10), metric form:
 * S = 25400/CN - 254 mm, Ia = 0.2 S, Q = (P - Ia)^2 / (P + 0.8 S) above Ia.
 */
module ScsRunoff {
  import opened Arith

  /** Potential maximum retention S (mm) of a curve number. */
  function Retention(cn: real): (s: real)
    requires cn != 0.0
    ensures 0.0 < cn <= 100.0 ==> s >= 0.0
    ensures 0.0 < cn < 100.0 ==> s > 0.0
  {
    RetentionSign(cn);
    25400.0 / cn - 254.0
  }

  lemma RetentionSign(cn: real)
    requires cn != 0.0
    ensures 0.0 < cn <= 100.0 ==> 25400.0 / cn - 254.0 >= 0.0
    ensures 0.0 < cn < 100.0 ==> 25400.0 / cn - 254.0 > 0.0
  {
    if 0.0 < cn <= 100.0 {
      var q := 25400.0 / cn;
      assert q * cn == 25400.0;
      assert q * cn - 254.0 * cn == (q - 254.0) * cn;
    }
  }

  /** A larger curve number means a smaller retention. */
  lemma RetentionAntitone(cn1: real, cn2: real)
    requires 0.0 < cn1 <= cn2
    ensures Retention(cn2) <= Retention(cn1)
  {
    var q1, q2 := 25400.0 / cn1, 25400.0 / cn2;
    assert Mul(q1, cn1) == 25400.0 && Mul(q2, cn2) == 25400.0;
    MulMonotone(cn1, cn2, q2);
    if q1 < q2 {
      MulMonotone(q1, q2, cn1);
    }
  }

  /** Runoff depth (mm) of a storm of depth p (mm) on a soil of retention s (mm). */
  function RunoffFromRetention(p: real, s: real): (q: real)
    requires p > 0.2 * s ==> p + 0.8 * s != 0.0
    ensures q == 0.0 <==> p <= 0.2 * s
    ensures s >= 0.0 ==> q >= 0.0
  {
    var ia := 0.2 * s;
    if p <= ia then 0.0
    else
      SqSign(p - ia);
      QuotientSign(Sq(p - ia), p + 0.8 * s);
      Sq(p - ia) / (p + 0.8 * s)
  }

  /** The only inputs on which the two divisions of scs_runoff_depth_mm are defined. */
  predicate RunoffDefined(p: real, cn: real)
  {
    cn != 0.0 && (p > 0.2 * Retention(cn) ==> p + 0.8 * Retention(cn) != 0.0)
  }

  /** Direct runoff depth Q (mm) of a storm of depth p (mm) on curve number cn. */
  function RunoffDepth(p: real, cn: real): (q: real)
    requires RunoffDefined(p, cn)
    ensures q == 0.0 <==> p <= 0.2 * Retention(cn)
    ensures 0.0 < cn <= 100.0 ==> q >= 0.0
  {
    RunoffFromRetention(p, Retention(cn))
  }

  /** Every curve number in (0, 100] admits every non-negative storm. */
  lemma RunoffDefinedOnRange(p: real, cn: real)
    requires p >= 0.0 && 0.0 < cn <= 100.0
    ensures RunoffDefined(p, cn)
  {
  }

  /** Runoff never exceeds rainfall, and is strictly less when S > 0. */
  lemma RunoffFromRetentionBelowRainfall(p: real, s: real)
    requires p >= 0.0 && s >= 0.0
    ensures RunoffFromRetention(p, s) <= p
    ensures s > 0.0 && p > 0.0 ==> RunoffFromRetention(p, s) < p
  {
    var a := 0.2 * s;
    if p > a {
      var x := p - a;
      assert p == x + a && p + 0.8 * s == x + 5.0 * a;
      SqBelowShiftedProduct(x, a);
      if s > 0.0 {
        QuotientLt(Sq(x), x + 5.0 * a, x + a, 1.0);
      } else {
        QuotientLe(Sq(x), x + 5.0 * a, x + a, 1.0);
      }
    }
  }

  lemma RunoffBelowRainfall(p: real, cn: real)
    requires p >= 0.0 && 0.0 < cn <= 100.0
    ensures RunoffDepth(p, cn) <= p
    ensures cn < 100.0 && p > 0.0 ==> RunoffDepth(p, cn) < p
  {
    RunoffFromRetentionBelowRainfall(p, Retention(cn));
  }

  /** A deeper storm never gives less runoff. */
  lemma RunoffFromRetentionMonotoneInRainfall(p1: real, p2: real, s: real)
    requires s >= 0.0 && p1 <= p2
    ensures RunoffFromRetention(p1, s) <= RunoffFromRetention(p2, s)
  {
    var a := 0.2 * s;
    if p1 > a {
      // with x = p1 - Ia, y = p2 - Ia and c = 5 Ia: x^2 (y + c) <= y^2 (x + c)
      var x, y, c := p1 - a, p2 - a, 5.0 * a;
      assert p1 + 0.8 * s == x + c && p2 + 0.8 * s == y + c;
      SqCrossMonotone(x, y, c);
      QuotientLe(Sq(x), x + c, Sq(y), y + c);
    }
  }

  /** A larger retention never gives more runoff. */
  lemma RunoffFromRetentionAntitoneInRetention(p: real, s1: real, s2: real)
    requires 0.0 <= s1 <= s2
    ensures RunoffFromRetention(p, s2) <= RunoffFromRetention(p, s1)
  {
    if p > 0.2 * s2 {
      var n1, n2 := Sq(p - 0.2 * s1), Sq(p - 0.2 * s2);
      var d1, d2 := p + 0.8 * s1, p + 0.8 * s2;
      SqMonotone(p - 0.2 * s2, p - 0.2 * s1);
      SqSign(p - 0.2 * s2);
      MulMonotone(n2, n1, d1);
      MulMonotone(d1, d2, n1);
      assert Mul(n1, d2) == Mul(d2, n1) && Mul(n1, d1) == Mul(d1, n1);
      QuotientLe(n2, d2, n1, d1);
    }
  }

  lemma RunoffMonotoneInRainfall(p1: real, p2: real, cn: real)
    requires 0.0 < cn <= 100.0 && 0.0 <= p1 <= p2
    ensures RunoffDepth(p1, cn) <= RunoffDepth(p2, cn)
  {
    RunoffFromRetentionMonotoneInRainfall(p1, p2, Retention(cn));
  }

  lemma RunoffMonotoneInCurveNumber(p: real, cn1: real, cn2: real)
    requires p >= 0.0 && 0.0 < cn1 <= cn2 <= 100.0
    ensures RunoffDepth(p, cn1) <= RunoffDepth(p, cn2)
  {
    RetentionAntitone(cn1, cn2);
    RunoffFromRetentionAntitoneInRetention(p, Retention(cn2), Retention(cn1));
  }

  /** The default design storm, 80 mm on curve number 85: S = 762/17 mm and Q is about 43.55 mm. */
  lemma DesignStormExample()
    ensures Retention(85.0) == 762.0 / 17.0
    ensures 43.55 < RunoffDepth(80.0, 85.0) < 43.56
  {
    var s := Retention(85.0);
    assert s == 762.0 / 17.0;
    assert 80.0 - 0.2 * s == 6038.0 / 85.0;
    assert 80.0 + 0.8 * s == 1969.6 / 17.0;
    assert Sq(6038.0 / 85.0) == 36457444.0 / 7225.0;
  }
}
