/** The salaries-tax evaluator (`calculateHKTax`): for one assessment it takes the
    income, the deductions and the allowances, computes the tax at the two-tier
    standard rate and at the progressive rates, keeps the lesser, and subtracts
    the one-off tax reduction, capped at 3,000. */
module Bracket {
  import opened Common

  /** Standard rate: 15% of net income up to 5,000,000, 16% of the excess. */
  const StandardThreshold: real := 5000000.0
  const StandardRate: real := 0.15
  const StandardHigherRate: real := 0.16

  /** Rate on the net chargeable income beyond the last band. */
  const TopRate: real := 0.17

  /** Cap of the tax reduction. */
  const ReductionCap: real := 3000.0

  /** One band of the progressive ladder: how much of the remaining net
      chargeable income it takes, and at which rate. */
  datatype Band = Band(width: real, rate: real)

  /** The progressive ladder below the top rate: four bands of 50,000 at 2%, 6%,
      10% and 14%. */
  const ProgressiveBands: seq<Band> :=
    [Band(50000.0, 0.02), Band(50000.0, 0.06), Band(50000.0, 0.10), Band(50000.0, 0.14)]

  datatype TaxResult = TaxResult(finalTax: real, baseTax: real, reduction: real)

  /** A ladder whose band widths and rates are all non-negative. */
  predicate ValidBands(bands: seq<Band>)
  {
    forall i :: 0 <= i < |bands| ==> bands[i].width >= 0.0 && bands[i].rate >= 0.0
  }

  /** Income after deductions, never negative. */
  function NetIncome(income: real, deductions: real): real
  {
    Max(0.0, income - deductions)
  }

  /** Income after deductions and allowances, never negative. */
  function NetChargeable(income: real, deductions: real, allowances: real): real
  {
    Max(0.0, NetIncome(income, deductions) - allowances)
  }

  /** Two-tier standard-rate tax on a net income: it lies between 15% and 16% of
      that income. */
  function StandardTax(net: real): (r: real)
    requires net >= 0.0
    ensures StandardRate * net <= r <= StandardHigherRate * net
  {
    if net <= StandardThreshold then net * StandardRate
    else StandardThreshold * StandardRate + (net - StandardThreshold) * StandardHigherRate
  }

  /** Tax on `n` by a ladder: while something is left, each band in turn takes at
      most its width at its rate, and whatever is left after the last band is
      taxed at `top`. */
  function LadderTax(n: real, bands: seq<Band>, top: real): (r: real)
    ensures ValidBands(bands) && top >= 0.0 ==> r >= 0.0
    decreases |bands|
  {
    if n <= 0.0 then 0.0
    else if bands == [] then n * top
    else
      var step := Min(n, bands[0].width);
      step * bands[0].rate + LadderTax(n - step, bands[1..], top)
  }

  /** Progressive tax on a net chargeable income. */
  function ProgressiveTax(netChargeable: real): (r: real)
    ensures r >= 0.0
  {
    assert ValidBands(ProgressiveBands);
    LadderTax(netChargeable, ProgressiveBands, TopRate)
  }

  /** The part of `n` that falls between `lo` and `hi`: never more than the
      band's width, nothing when `n` is below the band, all of it when `n` is
      above. */
  function Portion(n: real, lo: real, hi: real): (r: real)
    requires lo <= hi
    ensures 0.0 <= r <= hi - lo
    ensures n <= lo ==> r == 0.0
    ensures n >= hi ==> r == hi - lo
    ensures lo <= n <= hi ==> r == n - lo
  {
    Max(0.0, Min(n, hi) - lo)
  }

  /** The outcome of one assessment. The reduction never exceeds the cap or the
      base tax, the final tax is never negative, and the base tax is the lesser
      of the standard-rate and the progressive computation. */
  function Tax(income: real, deductions: real, allowances: real): (r: TaxResult)
    ensures 0.0 <= r.reduction <= ReductionCap
    ensures 0.0 <= r.finalTax <= r.baseTax
    ensures r.finalTax == r.baseTax - r.reduction
    ensures r.reduction == ReductionCap || r.finalTax == 0.0
    ensures r.baseTax <= StandardTax(NetIncome(income, deductions))
    ensures r.baseTax <= ProgressiveTax(NetChargeable(income, deductions, allowances))
    ensures r.baseTax == StandardTax(NetIncome(income, deductions))
         || r.baseTax == ProgressiveTax(NetChargeable(income, deductions, allowances))
  {
    var standard := StandardTax(NetIncome(income, deductions));
    var progressive := ProgressiveTax(NetChargeable(income, deductions, allowances));
    var base := Min(standard, progressive);
    var reduction := Min(base, ReductionCap);
    TaxResult(base - reduction, base, reduction)
  }

  /** `calculateHKTax` as the calculator runs it: net income, the standard-rate
      tax, the net chargeable income, the band ladder, then the lesser of the two
      taxes and the capped reduction. */
  method CalculateHKTax(income: real, deductions: real, allowances: real) returns (r: TaxResult)
    ensures r == Tax(income, deductions, allowances)
  {
    var netIncome := Max(0.0, income - deductions);
    var standardTax := if netIncome <= 5000000.0 then netIncome * 0.15
                       else (5000000.0 * 0.15) + ((netIncome - 5000000.0) * 0.16);
    assert standardTax == StandardTax(NetIncome(income, deductions));

    var netChargeable := Max(0.0, netIncome - allowances);
    var progressiveTax := ProgressiveLadder(netChargeable);

    var baseTax := Min(standardTax, progressiveTax);
    var taxReduction := Min(baseTax, 3000.0);
    r := TaxResult(baseTax - taxReduction, baseTax, taxReduction);
  }

  /** The band ladder of `calculateHKTax`: four steps, each taking at most 50,000
      of what is left of `netChargeable` in the local `n`, then 17% of any
      remainder. It computes exactly the ladder `ProgressiveTax` describes. */
  method ProgressiveLadder(netChargeable: real) returns (progressiveTax: real)
    ensures progressiveTax == ProgressiveTax(netChargeable)
  {
    progressiveTax := 0.0;
    var n := netChargeable;
    // Before each step, what is accumulated plus the ladder on what is left of
    // the bands is the whole progressive tax.
    ghost var bands := ProgressiveBands;
    assert bands[0] == Band(50000.0, 0.02);
    LadderStep(n, bands, TopRate);
    if n > 0.0 { var step := Min(n, 50000.0); progressiveTax := progressiveTax + step * 0.02; n := n - step; }
    bands := bands[1..];
    assert progressiveTax + LadderTax(n, bands, TopRate) == ProgressiveTax(netChargeable);
    assert bands[0] == Band(50000.0, 0.06);
    LadderStep(n, bands, TopRate);
    if n > 0.0 { var step := Min(n, 50000.0); progressiveTax := progressiveTax + step * 0.06; n := n - step; }
    bands := bands[1..];
    assert progressiveTax + LadderTax(n, bands, TopRate) == ProgressiveTax(netChargeable);
    assert bands[0] == Band(50000.0, 0.10);
    LadderStep(n, bands, TopRate);
    if n > 0.0 { var step := Min(n, 50000.0); progressiveTax := progressiveTax + step * 0.10; n := n - step; }
    bands := bands[1..];
    assert progressiveTax + LadderTax(n, bands, TopRate) == ProgressiveTax(netChargeable);
    assert bands[0] == Band(50000.0, 0.14);
    LadderStep(n, bands, TopRate);
    if n > 0.0 { var step := Min(n, 50000.0); progressiveTax := progressiveTax + step * 0.14; n := n - step; }
    bands := bands[1..];
    assert progressiveTax + LadderTax(n, bands, TopRate) == ProgressiveTax(netChargeable);
    assert bands == [];
    if n > 0.0 { progressiveTax := progressiveTax + n * 0.17; }
  }

  /** One band step of the ladder: with something left, the band takes its share
      and the rest goes down the ladder; with nothing left, the band is skipped. */
  lemma LadderStep(n: real, bands: seq<Band>, top: real)
    requires bands != []
    ensures LadderTax(n, bands, top) ==
      if n > 0.0 then Min(n, bands[0].width) * bands[0].rate
                      + LadderTax(n - Min(n, bands[0].width), bands[1..], top)
      else LadderTax(n, bands[1..], top)
  {
  }

  /** Multiplying by a non-negative rate keeps order. */
  lemma ScaleMonotone(a: real, b: real, rate: real)
    requires a <= b && rate >= 0.0
    ensures a * rate <= b * rate
  {
    assert b * rate - a * rate == (b - a) * rate;
  }

  /** A ladder with non-negative widths and rates never charges less on more. */
  lemma {:induction false} LadderMonotone(a: real, b: real, bands: seq<Band>, top: real)
    requires ValidBands(bands) && top >= 0.0
    requires a <= b
    ensures LadderTax(a, bands, top) <= LadderTax(b, bands, top)
    decreases |bands|
  {
    if a <= 0.0 {
      // the left side is zero and the right side is never negative
    } else if bands == [] {
      ScaleMonotone(a, b, top);
    } else {
      var w, rate := bands[0].width, bands[0].rate;
      var stepA, stepB := Min(a, w), Min(b, w);
      ValidTail(bands);
      assert a - stepA <= b - stepB;
      ScaleMonotone(stepA, stepB, rate);
      LadderMonotone(a - stepA, b - stepB, bands[1..], top);
      LadderStep(a, bands, top);
      if b > 0.0 {
        LadderStep(b, bands, top);
      }
    }
  }

  /** Dropping the first band of a valid table leaves a valid table. */
  lemma ValidTail(bands: seq<Band>)
    requires ValidBands(bands) && bands != []
    ensures ValidBands(bands[1..])
  {
    forall i | 0 <= i < |bands[1..]|
      ensures bands[1..][i].width >= 0.0 && bands[1..][i].rate >= 0.0
    {
      assert bands[1..][i] == bands[i + 1];
    }
  }

  /** The progressive tax is monotone non-decreasing in net chargeable income. */
  lemma ProgressiveMonotone(a: real, b: real)
    requires a <= b
    ensures ProgressiveTax(a) <= ProgressiveTax(b)
  {
    assert ValidBands(ProgressiveBands);
    LadderMonotone(a, b, ProgressiveBands, TopRate);
  }

  /** The progressive tax band by band: 2%, 6%, 10% and 14% of the parts of the
      net chargeable income in [0, 50,000], [50,000, 100,000], [100,000, 150,000]
      and [150,000, 200,000], and 17% of the part above 200,000. */
  lemma ProgressiveByBands(nc: real)
    ensures ProgressiveTax(nc) ==
      0.02 * Portion(nc, 0.0, 50000.0) + 0.06 * Portion(nc, 50000.0, 100000.0)
      + 0.10 * Portion(nc, 100000.0, 150000.0) + 0.14 * Portion(nc, 150000.0, 200000.0)
      + TopRate * Max(0.0, nc - 200000.0)
  {
    var bs := ProgressiveBands;
    assert bs[1..] == [Band(50000.0, 0.06), Band(50000.0, 0.10), Band(50000.0, 0.14)];
    assert bs[1..][1..] == [Band(50000.0, 0.10), Band(50000.0, 0.14)];
    assert bs[1..][1..][1..] == [Band(50000.0, 0.14)];
    assert bs[1..][1..][1..][1..] == [];
    var n1 := nc - Min(nc, 50000.0);
    var n2 := n1 - Min(n1, 50000.0);
    var n3 := n2 - Min(n2, 50000.0);
    var n4 := n3 - Min(n3, 50000.0);
    if nc <= 0.0 {
    } else if nc <= 50000.0 {
      assert LadderTax(n1, bs[1..], TopRate) == 0.0;
    } else if nc <= 100000.0 {
      assert LadderTax(n2, bs[1..][1..], TopRate) == 0.0;
    } else if nc <= 150000.0 {
      assert LadderTax(n3, bs[1..][1..][1..], TopRate) == 0.0;
    } else if nc <= 200000.0 {
      assert LadderTax(n4, bs[1..][1..][1..][1..], TopRate) == 0.0;
    } else {
      assert n4 == nc - 200000.0;
      assert LadderTax(n4, bs[1..][1..][1..][1..], TopRate) == n4 * TopRate;
    }
  }

  /** More income, with the same deductions and allowances, never means less tax. */
  lemma FinalTaxMonotone(income1: real, income2: real, deductions: real, allowances: real)
    requires income1 <= income2
    ensures Tax(income1, deductions, allowances).finalTax <= Tax(income2, deductions, allowances).finalTax
  {
    ProgressiveMonotone(NetChargeable(income1, deductions, allowances),
                        NetChargeable(income2, deductions, allowances));
    var n1, n2 := NetIncome(income1, deductions), NetIncome(income2, deductions);
    assert StandardTax(n1) <= StandardTax(n2);
  }

  /** 5,200,000 of net income: 750,000 on the first 5,000,000 and 16% of the
      remaining 200,000. */
  lemma StandardTaxAboveThreshold()
    ensures StandardTax(5200000.0) == 782000.0
    ensures Tax(5200000.0, 0.0, 0.0).baseTax == 782000.0
  {
    ProgressiveByBands(5200000.0);
  }

  /** 220,000 of net chargeable income: progressive 19,400 beats standard 33,000,
      the full 3,000 reduction applies and 16,400 is payable. */
  lemma WorkedExample220k()
    ensures StandardTax(220000.0) == 33000.0
    ensures ProgressiveTax(220000.0) == 19400.0
    ensures Tax(220000.0, 0.0, 0.0) == TaxResult(16400.0, 19400.0, 3000.0)
  {
    ProgressiveByBands(220000.0);
  }

  /** No base tax, no reduction; a large base tax, the full reduction. */
  lemma ReductionBoundaries()
    ensures Tax(0.0, 0.0, 0.0).reduction == 0.0
    ensures Tax(10000000.0, 0.0, 0.0).reduction == ReductionCap
  {
    ProgressiveByBands(10000000.0);
  }
}
