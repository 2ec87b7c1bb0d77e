/** The IMC_SF master equation: the per-day transition from the previous
    day's raw count, its 7-day average and its ratio to the new ratio `g`,
    composite indicator `s` and case-count band [n_s_min, n_s_max]. */
module MasterEquation {
  import opened Numerics

  /** The weights (p1, p2, p3) that split a raw count into three parts.
      They are passed unchanged to every step. */
  datatype Params = Params(p1: real, p2: real, p3: real)
  {
    predicate NonNegative()
    {
      0.0 <= p1 && 0.0 <= p2 && 0.0 <= p3
    }

    function Total(): real
    {
      p1 + p2 + p3
    }
  }

  /** The weights used when none are supplied. */
  const DefaultParams: Params := Params(0.5, 0.45, 0.05)

  /** Seeds of the first historical day (`ims_sf_init`). */
  const InitialG: real := 0.8
  const InitialS: real := 0.0

  /** Below this the rolling average is treated as zero when it is the divisor. */
  const Epsilon: real := 0.0000000001

  /** The outputs of one application of the master equation. */
  datatype Step = Step(g: real, s: Indicator, nsMin: real, nsMax: real)

  /** Equations 6 and 7: the smaller of the raw count and its average over
      the larger, with zero where the divisor vanishes. */
  function Ratio(nkt: real, nnb: real): real
  {
    if nkt > nnb then
      (if nkt > 0.0 then nnb / nkt else 0.0)
    else
      (if nnb > Epsilon then nkt / nnb else 0.0)
  }

  /** The ratio lies in [0, 1] for non-negative inputs and below 1 when the
      count exceeds its average; it is 0 on both guarded branches (and at a
      zero count), and wherever the divisor is not guarded away it is the
      smaller value over the larger. */
  lemma RatioRange(nkt: real, nnb: real)
    ensures 0.0 <= nkt && 0.0 <= nnb ==> 0.0 <= Ratio(nkt, nnb) <= 1.0
    ensures nnb < nkt ==> Ratio(nkt, nnb) < 1.0
    ensures nkt == 0.0 ==> Ratio(nkt, nnb) == 0.0
    ensures nnb < nkt <= 0.0 ==> Ratio(nkt, nnb) == 0.0
    ensures nkt <= nnb <= Epsilon ==> Ratio(nkt, nnb) == 0.0
    ensures (0.0 < nkt && nnb < nkt) || (nkt <= nnb && Epsilon < nnb) ==>
              Ratio(nkt, nnb) * Max(nkt, nnb) == Min(nkt, nnb)
  {
    if nkt > nnb {
      if nkt > 0.0 {
        QuotientAtMostOne(nnb, nkt);
      }
    } else if nnb > Epsilon {
      QuotientAtMostOne(nkt, nnb);
    }
  }

  lemma QuotientAtMostOne(a: real, b: real)
    requires 0.0 < b
    ensures 0.0 <= a <= b ==> 0.0 <= a / b <= 1.0
    ensures (a / b) * b == a
  {
  }

  /** Day-over-day change of the ratio. */
  function DeltaG(g0: real, g: real): real
  {
    if g0 < g then
      (g0 - g) - (1.0 - g) * (1.0 - g)
    else
      (g0 - g) + (1.0 - g0) * (1.0 - g0)
  }

  /** The change is negative exactly when the ratio rose; it is the squared
      distance to 1 when the ratio stayed, and it is never smaller in size
      than the change of the ratio itself. */
  lemma DeltaGSign(g0: real, g: real)
    ensures DeltaG(g0, g) < 0.0 <==> g0 < g
    ensures g0 == g ==> DeltaG(g0, g) == (1.0 - g0) * (1.0 - g0)
    ensures g0 < g ==> DeltaG(g0, g) <= g0 - g
    ensures g <= g0 ==> g0 - g <= DeltaG(g0, g)
  {
  }

  /** Equation 1, over the components n1 = p1 n, n2 = p2 n, n3 = p3 n. */
  function LowerBound(p: Params, nkt: real, g: real): real
  {
    g * (1.0 * (p.p1 * nkt) + 3.0 * (p.p2 * nkt) + 5.0 * (p.p3 * nkt)) / 1.0
  }

  /** Equation 2. */
  function UpperBound(p: Params, nkt: real, g: real): real
  {
    g * (2.0 * (p.p1 * nkt) + 4.0 * (p.p2 * nkt) + 6.0 * (p.p3 * nkt)) / 1.0
  }

  /** Equation 8: the relative deviation of the average from the raw count,
      capped by the raw count. Its division is unguarded, so a zero raw
      count makes it singular. */
  function DeltaNk(nkt: real, nnb: real): Indicator
  {
    if nkt != 0.0 then Defined(Min((nnb - nkt) / nkt, nkt)) else Singular
  }

  /** `delta_nk` is defined exactly for a non-zero count, and then it is the
      smaller of the relative deviation and the count. */
  lemma DeltaNkBounds(nkt: real, nnb: real)
    ensures DeltaNk(nkt, nnb).Defined? <==> nkt != 0.0
    ensures nkt != 0.0 ==> DeltaNk(nkt, nnb).value <= nkt && DeltaNk(nkt, nnb).value <= (nnb - nkt) / nkt
    ensures nkt != 0.0 ==> DeltaNk(nkt, nnb).value == nkt || DeltaNk(nkt, nnb).value == (nnb - nkt) / nkt
  {
  }

  /** The master equation (`ims_sf_master_equation`). Its properties are
      stated by the lemmas below. */
  function Master(p: Params, nkt: real, nnb: real, g0: real): Step
  {
    var g := Ratio(nkt, nnb);
    var dg := DeltaG(g0, g);
    var dnk := DeltaNk(nkt, nnb);
    // Equation 9: the composite indicator blends the two changes 2:1.
    var s := if dnk.Defined? then Defined((2.0 * dg + dnk.value) / 3.0) else Singular;
    Step(g, s, LowerBound(p, nkt, g), UpperBound(p, nkt, g))
  }

  /** For non-negative inputs the new ratio lies in [0, 1]. */
  lemma MasterRatio(p: Params, nkt: real, nnb: real, g0: real)
    requires 0.0 <= nkt && 0.0 <= nnb
    ensures 0.0 <= Master(p, nkt, nnb, g0).g <= 1.0
  {
    RatioRange(nkt, nnb);
  }

  /** The band is g n (p1 + p2 + p3) wide, g n wide when the weights sum to
      one, and ordered and non-negative for non-negative weights and inputs. */
  lemma MasterBand(p: Params, nkt: real, nnb: real, g0: real)
    ensures Master(p, nkt, nnb, g0).nsMax - Master(p, nkt, nnb, g0).nsMin ==
              Master(p, nkt, nnb, g0).g * nkt * p.Total()
    ensures p.Total() == 1.0 ==>
              Master(p, nkt, nnb, g0).nsMax - Master(p, nkt, nnb, g0).nsMin == Master(p, nkt, nnb, g0).g * nkt
    ensures p.NonNegative() && 0.0 <= nkt && 0.0 <= nnb ==>
              0.0 <= Master(p, nkt, nnb, g0).nsMin <= Master(p, nkt, nnb, g0).nsMax
  {
    BandOf(p, nkt, nnb, Master(p, nkt, nnb, g0));
  }

  lemma BandOf(p: Params, nkt: real, nnb: real, r: Step)
    requires r.g == Ratio(nkt, nnb)
    requires r.nsMin == LowerBound(p, nkt, r.g) && r.nsMax == UpperBound(p, nkt, r.g)
    ensures r.nsMax - r.nsMin == r.g * nkt * p.Total()
    ensures p.Total() == 1.0 ==> r.nsMax - r.nsMin == r.g * nkt
    ensures p.NonNegative() && 0.0 <= nkt && 0.0 <= nnb ==> 0.0 <= r.nsMin <= r.nsMax
  {
    RatioRange(nkt, nnb);
    BandLemma(p, nkt, r.g);
  }

  /** The mean of the band is g n (3 p1 + 7 p2 + 11 p3) / 2. */
  lemma MasterMean(p: Params, nkt: real, nnb: real, g0: real)
    ensures (Master(p, nkt, nnb, g0).nsMax + Master(p, nkt, nnb, g0).nsMin) / 2.0 ==
            Master(p, nkt, nnb, g0).g * nkt * (3.0 * p.p1 + 7.0 * p.p2 + 11.0 * p.p3) / 2.0
  {
    MeanOf(p, nkt, Master(p, nkt, nnb, g0).g, Master(p, nkt, nnb, g0).nsMin, Master(p, nkt, nnb, g0).nsMax);
  }

  lemma MeanOf(p: Params, nkt: real, g: real, lo: real, hi: real)
    requires lo == LowerBound(p, nkt, g) && hi == UpperBound(p, nkt, g)
    ensures (hi + lo) / 2.0 == g * nkt * (3.0 * p.p1 + 7.0 * p.p2 + 11.0 * p.p3) / 2.0
  {
    var a, b, c := p.p1 * nkt, p.p2 * nkt, p.p3 * nkt;
    assert hi + lo == g * (3.0 * a + 7.0 * b + 11.0 * c);
    assert 3.0 * a + 7.0 * b + 11.0 * c == nkt * (3.0 * p.p1 + 7.0 * p.p2 + 11.0 * p.p3);
  }

  /** The only singularity: the indicator is undefined exactly when the raw
      count is zero, and then the ratio and the band are zero too. */
  lemma MasterSingular(p: Params, nkt: real, nnb: real, g0: real)
    ensures Master(p, nkt, nnb, g0).s.Defined? <==> nkt != 0.0
    ensures nkt == 0.0 ==> Master(p, nkt, nnb, g0) == Step(0.0, Singular, 0.0, 0.0)
  {
  }

  /** The band's width is g n (p1 + p2 + p3), and the band is ordered and
      non-negative for non-negative weights, count and ratio. */
  lemma BandLemma(p: Params, nkt: real, g: real)
    ensures UpperBound(p, nkt, g) - LowerBound(p, nkt, g) == g * nkt * p.Total()
    ensures p.NonNegative() && 0.0 <= nkt && 0.0 <= g ==>
              0.0 <= LowerBound(p, nkt, g) <= UpperBound(p, nkt, g)
  {
    var a, b, c := p.p1 * nkt, p.p2 * nkt, p.p3 * nkt;
    assert a + b + c == nkt * p.Total();
    assert UpperBound(p, nkt, g) - LowerBound(p, nkt, g) == g * (a + b + c);
    if p.NonNegative() && 0.0 <= nkt && 0.0 <= g {
      assert 0.0 <= a && 0.0 <= b && 0.0 <= c;
      assert 0.0 <= g * (a + 3.0 * b + 5.0 * c);
      assert 0.0 <= g * (a + b + c);
    }
  }

  /** Equation 9 in terms of its parts: where the indicator is defined, it is
      two thirds of the ratio change plus a third of `delta_nk`, so it never
      exceeds (2 delta_g + n_kt) / 3. */
  lemma IndicatorParts(p: Params, nkt: real, nnb: real, g0: real)
    ensures Master(p, nkt, nnb, g0).s.Defined? ==>
              3.0 * Master(p, nkt, nnb, g0).s.value ==
                2.0 * DeltaG(g0, Ratio(nkt, nnb)) + DeltaNk(nkt, nnb).value
    ensures Master(p, nkt, nnb, g0).s.Defined? ==>
              3.0 * Master(p, nkt, nnb, g0).s.value <= 2.0 * DeltaG(g0, Ratio(nkt, nnb)) + nkt
  {
    DeltaNkBounds(nkt, nnb);
  }

  /** Both ratio branches agree: the ratio does not depend on which of the
      two positive quantities is the raw count. */
  lemma RatioSymmetric(a: real, b: real)
    requires Epsilon < a && Epsilon < b
    ensures Ratio(a, b) == Ratio(b, a)
  {
    RatioRange(a, b);
    RatioRange(b, a);
    if a < b {
      assert Ratio(a, b) * b == a && Ratio(b, a) * b == a;
    } else if b < a {
      assert Ratio(a, b) * a == b && Ratio(b, a) * a == b;
    }
  }

  /** The sample call of the source: n_kt = 30, average 45, g0 = 0.5 and the
      default weights give g = 2/3, band [42, 62] and s = -1/54. */
  lemma SampleCall()
    ensures Master(DefaultParams, 30.0, 45.0, 0.5) == Step(2.0 / 3.0, Defined(-1.0 / 54.0), 42.0, 62.0)
  {
  }
}
