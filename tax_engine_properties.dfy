/**
 * Properties of the tax engine: each if-chain agrees with the reference reducer over its
 * regime's schedule, the hard-coded bases are the schedule's cumulative bases, the
 * breakdown adds up to the tax, and the tax is non-negative, non-decreasing and continuous.
 */
module TaxEngineProperties {
  import opened Wrappers
  import opened Money
  import opened Brackets
  import opened TaxEngine

  /** Both schedules start at zero, increase and have non-negative rates of at most 30%. */
  lemma SchedulesWellFormed()
    ensures WellFormed(NewRegimeSchedule) && WellFormed(OldRegimeSchedule)
    ensures forall j :: 0 <= j < |NewRegimeSchedule| ==> NewRegimeSchedule[j].rate <= 0.30
    ensures forall j :: 0 <= j < |OldRegimeSchedule| ==> OldRegimeSchedule[j].rate <= 0.30
  {
  }

  /** The base amounts written into the new regime's if-chain are the schedule's cumulative bases. */
  lemma NewRegimeBases()
    ensures CumulativeBase(NewRegimeSchedule, 0) == 0.0
    ensures CumulativeBase(NewRegimeSchedule, 1) == 0.0
    ensures CumulativeBase(NewRegimeSchedule, 2) == 15000.0
    ensures CumulativeBase(NewRegimeSchedule, 3) == 45000.0
    ensures CumulativeBase(NewRegimeSchedule, 4) == 90000.0
    ensures CumulativeBase(NewRegimeSchedule, 5) == 150000.0
  {
  }

  /** The base amounts of the old regime's if-chain: 12500 at 500000 and 112500 = 12500 + 100000 at 1000000. */
  lemma OldRegimeBases()
    ensures CumulativeBase(OldRegimeSchedule, 0) == 0.0
    ensures CumulativeBase(OldRegimeSchedule, 1) == 0.0
    ensures CumulativeBase(OldRegimeSchedule, 2) == 12500.0
    ensures CumulativeBase(OldRegimeSchedule, 3) == 112500.0
  {
  }

  /** The index of the new-regime bracket that holds `x`. */
  function NewRegimeBracketOf(x: real): (k: nat)
    ensures k < |NewRegimeSchedule|
    ensures k == 0 || NewRegimeSchedule[k].lower < x
    ensures k + 1 == |NewRegimeSchedule| || x <= NewRegimeSchedule[k + 1].lower
  {
    if x <= 300000.0 then 0
    else if x <= 600000.0 then 1
    else if x <= 900000.0 then 2
    else if x <= 1200000.0 then 3
    else if x <= 1500000.0 then 4
    else 5
  }

  /** The new regime's if-chain charges the tax of the marginal-bracket reducer over the new schedule. */
  lemma NewRegimeTaxMatchesSchedule(x: real)
    requires x >= 0.0
    ensures NewRegimeBrackets(x).tax == MarginalTax(NewRegimeSchedule, x)
  {
    SchedulesWellFormed();
    NewRegimeBases();
    MarginalTaxInBracket(NewRegimeSchedule, x, NewRegimeBracketOf(x));
  }

  /** Entry `i` of the new regime's breakdown is the reference entry of bracket `i`. */
  lemma NewRegimeSlabAt(x: real, i: nat)
    requires x >= 0.0 && i < |NewRegimeBrackets(x).slabs|
    ensures i < |NewRegimeSchedule| && NewRegimeBrackets(x).slabs[i] == RefSlab(NewRegimeSchedule, i, x)
  {
    var t := NewRegimeSchedule;
    var e := NewRegimeBrackets(x).slabs[i];
    if i == 0 {
      assert e == RefSlab(t, 0, x);
    } else if i == 1 {
      assert e == RefSlab(t, 1, x);
    } else if i == 2 {
      assert e == RefSlab(t, 2, x);
    } else if i == 3 {
      assert e == RefSlab(t, 3, x);
    } else if i == 4 {
      assert e == RefSlab(t, 4, x);
    } else {
      assert e == RefSlab(t, 5, x);
    }
  }

  /**
   * The new regime's if-chain emits exactly the reference breakdown: one entry per bracket up
   * to the one holding the income, each with that bracket's labels and its rate on its portion.
   */
  lemma NewRegimeSlabsMatchSchedule(x: real)
    requires x >= 0.0
    ensures NewRegimeBrackets(x).slabs == RefSlabs(NewRegimeSchedule, x)
  {
    var t := NewRegimeSchedule;
    SchedulesWellFormed();
    SlabCountIs(t, x, NewRegimeBracketOf(x) + 1);
    var s := RefSlabs(t, x);
    var slabs := NewRegimeBrackets(x).slabs;
    assert |s| == |slabs|;
    forall i | 0 <= i < |s| ensures s[i] == slabs[i] {
      NewRegimeSlabAt(x, i);
    }
  }

  /** The new regime's breakdown adds up to its unrounded tax. */
  lemma NewRegimeBreakdownAddsUp(x: real)
    requires x >= 0.0
    ensures SumTax(NewRegimeBrackets(x).slabs) == NewRegimeBrackets(x).tax
  {
    SchedulesWellFormed();
    NewRegimeTaxMatchesSchedule(x);
    NewRegimeSlabsMatchSchedule(x);
    SumTaxOfRefSlabs(NewRegimeSchedule, x);
  }

  /** No new-regime tax is due up to 300000. */
  lemma NewRegimeZeroBand(x: real)
    requires x <= 300000.0
    ensures NewRegimeBrackets(x).tax == 0.0 && CalculateNewTaxRegime(x).taxAmount == 0
  {
  }

  /**
   * The new regime's unrounded tax is non-decreasing, and grows by at most 30% of the growth
   * of the income: so it is continuous, at 600000, 900000, 1200000 and 1500000 too.
   */
  lemma NewRegimeGrowth(x: real, y: real)
    requires 0.0 <= x <= y
    ensures 0.0 <= NewRegimeBrackets(y).tax - NewRegimeBrackets(x).tax <= 0.30 * (y - x)
  {
  }

  /** A tax of at most `c` times a positive base is an effective rate of at most `c * 100` percent. */
  lemma RateAtMost(tax: real, base: real, c: real)
    requires base > 0.0 && 0.0 <= tax <= c * base
    ensures 0.0 <= tax / base * 100.0 <= c * 100.0
  {
    assert tax / base <= c;
  }

  /**
   * What `calculateNewTaxRegime` returns for a non-negative taxable income: the rounded tax of
   * the new schedule, never negative; an effective rate between 0 and 30 that is 0 on a zero
   * income and otherwise the unrounded tax over the income, in percent, to two decimals.
   */
  lemma CalculateNewTaxRegimeSpec(x: real)
    requires x >= 0.0
    ensures CalculateNewTaxRegime(x).taxAmount == Round(MarginalTax(NewRegimeSchedule, x))
    ensures CalculateNewTaxRegime(x).taxAmount >= 0
    ensures CalculateNewTaxRegime(x).details.slabs == RefSlabs(NewRegimeSchedule, x)
    ensures x == 0.0 ==> CalculateNewTaxRegime(x).effectiveTaxRate == 0.0
    ensures x > 0.0 ==> CalculateNewTaxRegime(x).effectiveTaxRate
                        == RoundTo2(MarginalTax(NewRegimeSchedule, x) / x * 100.0)
    ensures 0.0 <= CalculateNewTaxRegime(x).effectiveTaxRate <= 30.0
  {
    var tax := NewRegimeBrackets(x).tax;
    NewRegimeTaxMatchesSchedule(x);
    NewRegimeSlabsMatchSchedule(x);
    NewRegimeGrowth(0.0, x);
    RoundNonNegative(tax);
    RoundTo2OfCents(3000);
    if x > 0.0 {
      RateAtMost(tax, x, 0.30);
      RoundTo2NonNegative(tax / x * 100.0);
      RoundTo2Monotone(tax / x * 100.0, 30.0);
    } else {
      RoundTo2OfCents(0);
    }
  }

  /** The rounded new-regime tax amount is non-decreasing in the taxable income. */
  lemma NewRegimeTaxAmountMonotone(x: real, y: real)
    requires 0.0 <= x <= y
    ensures CalculateNewTaxRegime(x).taxAmount <= CalculateNewTaxRegime(y).taxAmount
  {
    NewRegimeGrowth(x, y);
    RoundMonotone(NewRegimeBrackets(x).tax, NewRegimeBrackets(y).tax);
  }

  // ---------------------------------------------------------------------------------
  // The old regime

  /** The index of the old-regime bracket that holds `f`. */
  function OldRegimeBracketOf(f: real): (k: nat)
    ensures k < |OldRegimeSchedule|
    ensures k == 0 || OldRegimeSchedule[k].lower < f
    ensures k + 1 == |OldRegimeSchedule| || f <= OldRegimeSchedule[k + 1].lower
  {
    if f <= 250000.0 then 0
    else if f <= 500000.0 then 1
    else if f <= 1000000.0 then 2
    else 3
  }

  /** The old regime's if-chain charges the tax of the marginal-bracket reducer over the old schedule. */
  lemma OldRegimeTaxMatchesSchedule(f: real)
    requires f >= 0.0
    ensures OldRegimeBrackets(f).tax == MarginalTax(OldRegimeSchedule, f)
  {
    SchedulesWellFormed();
    OldRegimeBases();
    MarginalTaxInBracket(OldRegimeSchedule, f, OldRegimeBracketOf(f));
  }

  /** Entry `i` of the old regime's breakdown is the reference entry of bracket `i`. */
  lemma OldRegimeSlabAt(f: real, i: nat)
    requires f >= 0.0 && i < |OldRegimeBrackets(f).slabs|
    ensures i < |OldRegimeSchedule| && OldRegimeBrackets(f).slabs[i] == RefSlab(OldRegimeSchedule, i, f)
  {
    var t := OldRegimeSchedule;
    var e := OldRegimeBrackets(f).slabs[i];
    if i == 0 {
      assert e == RefSlab(t, 0, f);
    } else if i == 1 {
      assert e == RefSlab(t, 1, f);
    } else if i == 2 {
      assert e == RefSlab(t, 2, f);
    } else {
      assert e == RefSlab(t, 3, f);
    }
  }

  /** The old regime's if-chain emits exactly the reference breakdown of the old schedule. */
  lemma OldRegimeSlabsMatchSchedule(f: real)
    requires f >= 0.0
    ensures OldRegimeBrackets(f).slabs == RefSlabs(OldRegimeSchedule, f)
  {
    var t := OldRegimeSchedule;
    SchedulesWellFormed();
    SlabCountIs(t, f, OldRegimeBracketOf(f) + 1);
    var s := RefSlabs(t, f);
    var slabs := OldRegimeBrackets(f).slabs;
    assert |s| == |slabs|;
    forall i | 0 <= i < |s| ensures s[i] == slabs[i] {
      OldRegimeSlabAt(f, i);
    }
  }

  /** The old regime's slab entries add up to its bracket tax. */
  lemma OldRegimeBreakdownAddsUp(f: real)
    requires f >= 0.0
    ensures SumTax(OldRegimeBrackets(f).slabs) == OldRegimeBrackets(f).tax
  {
    SchedulesWellFormed();
    OldRegimeTaxMatchesSchedule(f);
    OldRegimeSlabsMatchSchedule(f);
    SumTaxOfRefSlabs(OldRegimeSchedule, f);
  }

  /** The old regime's bracket tax is non-decreasing and grows by at most 30% of the income's growth. */
  lemma OldRegimeGrowth(f: real, g: real)
    requires 0.0 <= f <= g
    ensures 0.0 <= OldRegimeBrackets(g).tax - OldRegimeBrackets(f).tax <= 0.30 * (g - f)
  {
  }

  /** The old regime's total before rounding: the bracket tax on the final taxable income, plus 4% cess. */
  function OldRegimeTotal(taxableIncome: real): real
  {
    OldRegimeBrackets(FinalTaxableIncome(taxableIncome)).tax * (1.0 + CessRate)
  }

  /**
   * What `calculateOldTaxRegime` returns: the cess entry holds 4% of the old schedule's tax on
   * the final taxable income, the slabs and the cess add up to 1.04 times that tax, the tax
   * amount is that total rounded, never negative, and the effective rate lies between 0 and
   * 31.2, is 0 when the final taxable income is 0 and otherwise is the unrounded total over
   * the final taxable income, in percent, to two decimals.
   */
  lemma CalculateOldTaxRegimeSpec(taxableIncome: real, deductions: real)
    ensures var r := CalculateOldTaxRegime(taxableIncome, deductions);
            var f := FinalTaxableIncome(taxableIncome);
            && r.details.slabs == RefSlabs(OldRegimeSchedule, f)
            && r.details.cess == Some(CessEntry("Health and Education Cess", "4%",
                                                0.04 * MarginalTax(OldRegimeSchedule, f)))
            && SumTax(r.details.slabs) + r.details.cess.value.amount == 1.04 * MarginalTax(OldRegimeSchedule, f)
            && OldRegimeTotal(taxableIncome) == 1.04 * MarginalTax(OldRegimeSchedule, f)
            && r.taxAmount == Round(OldRegimeTotal(taxableIncome))
            && r.taxAmount >= 0
            && (f == 0.0 ==> r.effectiveTaxRate == 0.0)
            && (f > 0.0 ==> r.effectiveTaxRate == RoundTo2(OldRegimeTotal(taxableIncome) / f * 100.0))
            && 0.0 <= r.effectiveTaxRate <= 31.2
  {
    var f := FinalTaxableIncome(taxableIncome);
    var b := OldRegimeBrackets(f).tax;
    OldRegimeTaxMatchesSchedule(f);
    OldRegimeSlabsMatchSchedule(f);
    OldRegimeBreakdownAddsUp(f);
    OldRegimeGrowth(0.0, f);
    var total := b + b * CessRate;
    assert total == OldRegimeTotal(taxableIncome) == 1.04 * b;
    RoundNonNegative(total);
    RoundTo2OfCents(3120);
    if f > 0.0 {
      RateAtMost(total, f, 0.312);
      RoundTo2NonNegative(total / f * 100.0);
      RoundTo2Monotone(total / f * 100.0, 31.2);
    } else {
      RoundTo2OfCents(0);
    }
  }

  /** The deductions argument of `calculateOldTaxRegime` has no effect on its result. */
  lemma OldRegimeIgnoresDeductions(taxableIncome: real, d1: real, d2: real)
    ensures CalculateOldTaxRegime(taxableIncome, d1) == CalculateOldTaxRegime(taxableIncome, d2)
  {
  }

  /** No old-regime tax is due on a taxable income up to 300000 (250000 after the standard deduction). */
  lemma OldRegimeZeroBand(taxableIncome: real, deductions: real)
    requires taxableIncome <= 300000.0
    ensures OldRegimeTotal(taxableIncome) == 0.0
    ensures CalculateOldTaxRegime(taxableIncome, deductions).taxAmount == 0
  {
  }

  /**
   * The old regime's total before rounding is non-decreasing in the taxable income and grows
   * by at most 31.2% (30% plus its cess) of the income's growth.
   */
  lemma OldRegimeTotalGrowth(x: real, y: real)
    requires 0.0 <= x <= y
    ensures 0.0 <= OldRegimeTotal(y) - OldRegimeTotal(x) <= 0.312 * (y - x)
  {
    var f, g := FinalTaxableIncome(x), FinalTaxableIncome(y);
    OldRegimeGrowth(f, g);
    assert g - f <= y - x;
  }

  /** The rounded old-regime tax amount is non-decreasing in the taxable income. */
  lemma OldRegimeTaxAmountMonotone(x: real, y: real, deductions: real)
    requires 0.0 <= x <= y
    ensures CalculateOldTaxRegime(x, deductions).taxAmount <= CalculateOldTaxRegime(y, deductions).taxAmount
  {
    OldRegimeTotalGrowth(x, y);
    assert OldRegimeTotal(x) == OldRegimeBrackets(FinalTaxableIncome(x)).tax * (1.0 + CessRate);
    RoundMonotone(OldRegimeTotal(x), OldRegimeTotal(y));
  }

  /** Worked values of both regimes at their boundaries and at a mid-range income. */
  lemma EngineExamples()
    ensures CalculateNewTaxRegime(300000.0).taxAmount == 0
    ensures CalculateNewTaxRegime(600000.0).taxAmount == 15000
    ensures CalculateNewTaxRegime(1500000.0).taxAmount == 150000
    ensures CalculateNewTaxRegime(0.0).effectiveTaxRate == 0.0
    ensures CalculateOldTaxRegime(800000.0, 0.0).taxAmount == 65000
    ensures CalculateOldTaxRegime(800000.0, 0.0).details.cess.value.amount == 2500.0
    ensures CalculateOldTaxRegime(800000.0, 0.0).effectiveTaxRate == 8.67
    ensures CalculateOldTaxRegime(50000.0, 0.0).effectiveTaxRate == 0.0
  {
    RoundOfInteger(0);
    RoundOfInteger(15000);
    RoundOfInteger(150000);
    RoundOfInteger(65000);
    assert 65000.0 / 750000.0 * 100.0 * 100.0 + 0.5 == 867.0 + 1.0 / 6.0;
    RoundTo2OfCents(0);
  }
}
