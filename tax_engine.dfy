/**
 * The tax engine: the new-regime and old-regime computations of the tax route
 * (`calculateNewTaxRegime`, `calculateOldTaxRegime`). Each maps a taxable income to a
 * rounded tax amount, an effective rate and a per-slab breakdown. Money is exact (`real`).
 */
module TaxEngine {
  import opened Wrappers
  import opened Money
  import opened Brackets

  /** The `cess` entry of an old-regime breakdown. */
  datatype CessEntry = CessEntry(description: string, rate: string, amount: real)

  /** The `standardDeduction` entry of an old-regime breakdown. */
  datatype DeductionEntry = DeductionEntry(amount: real, description: string)

  /**
   * The `details` object: its keys `slab1`, `slab2`, ... as a sequence (`slabs[0]` is
   * `slab1`), then the `cess` and `standardDeduction` entries where present.
   */
  datatype Details = Details(slabs: seq<Slab>, cess: Option<CessEntry>, standardDeduction: Option<DeductionEntry>)

  /** What either regime function returns. */
  datatype TaxResult = TaxResult(taxAmount: int, effectiveTaxRate: real, details: Details)

  /** The unrounded tax of a bracket if-chain together with the slab entries it emits. */
  datatype Bracketed = Bracketed(tax: real, slabs: seq<Slab>)

  /** The new regime's schedule, as a table for the reference reducer. */
  const NewRegimeSchedule: seq<Bracket> := [
    Bracket(0.0, 0.0, "0 - 3,00,000", "0%"),
    Bracket(300000.0, 0.05, "3,00,001 - 6,00,000", "5%"),
    Bracket(600000.0, 0.10, "6,00,001 - 9,00,000", "10%"),
    Bracket(900000.0, 0.15, "9,00,001 - 12,00,000", "15%"),
    Bracket(1200000.0, 0.20, "12,00,001 - 15,00,000", "20%"),
    Bracket(1500000.0, 0.30, "Above 15,00,000", "30%")
  ]

  /** The old regime's schedule, as a table for the reference reducer. */
  const OldRegimeSchedule: seq<Bracket> := [
    Bracket(0.0, 0.0, "0 - 2,50,000", "0%"),
    Bracket(250000.0, 0.05, "2,50,001 - 5,00,000", "5%"),
    Bracket(500000.0, 0.20, "5,00,001 - 10,00,000", "20%"),
    Bracket(1000000.0, 0.30, "Above 10,00,000", "30%")
  ]

  /** The old regime's standard deduction. */
  const StandardDeduction: real := 50000.0

  /** The old regime's Health and Education Cess, as a fraction of the bracket tax. */
  const CessRate: real := 0.04

  /** `taxAmount / base * 100` when the base is positive, else 0, rounded to two decimals. */
  function EffectiveRate(tax: real, base: real): real
  {
    RoundTo2(if base > 0.0 then tax / base * 100.0 else 0.0)
  }

  /** The new regime's if-chain: the tax before rounding and the `slabN` entries. */
  function NewRegimeBrackets(taxableIncome: real): Bracketed
  {
    var x := taxableIncome;
    if x <= 300000.0 then
      Bracketed(0.0, [Slab("0 - 3,00,000", "0%", 0.0)])
    else if x <= 600000.0 then
      var tax := (x - 300000.0) * 0.05;
      Bracketed(tax, [Slab("0 - 3,00,000", "0%", 0.0),
                      Slab("3,00,001 - 6,00,000", "5%", tax)])
    else if x <= 900000.0 then
      Bracketed(15000.0 + (x - 600000.0) * 0.10,
                [Slab("0 - 3,00,000", "0%", 0.0),
                 Slab("3,00,001 - 6,00,000", "5%", 15000.0),
                 Slab("6,00,001 - 9,00,000", "10%", (x - 600000.0) * 0.10)])
    else if x <= 1200000.0 then
      Bracketed(45000.0 + (x - 900000.0) * 0.15,
                [Slab("0 - 3,00,000", "0%", 0.0),
                 Slab("3,00,001 - 6,00,000", "5%", 15000.0),
                 Slab("6,00,001 - 9,00,000", "10%", 30000.0),
                 Slab("9,00,001 - 12,00,000", "15%", (x - 900000.0) * 0.15)])
    else if x <= 1500000.0 then
      Bracketed(90000.0 + (x - 1200000.0) * 0.20,
                [Slab("0 - 3,00,000", "0%", 0.0),
                 Slab("3,00,001 - 6,00,000", "5%", 15000.0),
                 Slab("6,00,001 - 9,00,000", "10%", 30000.0),
                 Slab("9,00,001 - 12,00,000", "15%", 45000.0),
                 Slab("12,00,001 - 15,00,000", "20%", (x - 1200000.0) * 0.20)])
    else
      Bracketed(150000.0 + (x - 1500000.0) * 0.30,
                [Slab("0 - 3,00,000", "0%", 0.0),
                 Slab("3,00,001 - 6,00,000", "5%", 15000.0),
                 Slab("6,00,001 - 9,00,000", "10%", 30000.0),
                 Slab("9,00,001 - 12,00,000", "15%", 45000.0),
                 Slab("12,00,001 - 15,00,000", "20%", 60000.0),
                 Slab("Above 15,00,000", "30%", (x - 1500000.0) * 0.30)])
  }

  /** `calculateNewTaxRegime`: no deduction and no cess; the rate's base is the taxable income. */
  function CalculateNewTaxRegime(taxableIncome: real): (r: TaxResult)
    ensures r.details.cess.None? && r.details.standardDeduction.None?
    ensures taxableIncome <= 0.0 ==> r.effectiveTaxRate == 0.0
  {
    var b := NewRegimeBrackets(taxableIncome);
    TaxResult(Round(b.tax), EffectiveRate(b.tax, taxableIncome), Details(b.slabs, None, None))
  }

  /** The old regime's if-chain on the income left after the standard deduction. */
  function OldRegimeBrackets(finalTaxableIncome: real): Bracketed
  {
    var f := finalTaxableIncome;
    if f <= 250000.0 then
      Bracketed(0.0, [Slab("0 - 2,50,000", "0%", 0.0)])
    else if f <= 500000.0 then
      var tax := (f - 250000.0) * 0.05;
      Bracketed(tax, [Slab("0 - 2,50,000", "0%", 0.0),
                      Slab("2,50,001 - 5,00,000", "5%", tax)])
    else if f <= 1000000.0 then
      Bracketed(12500.0 + (f - 500000.0) * 0.20,
                [Slab("0 - 2,50,000", "0%", 0.0),
                 Slab("2,50,001 - 5,00,000", "5%", 12500.0),
                 Slab("5,00,001 - 10,00,000", "20%", (f - 500000.0) * 0.20)])
    else
      Bracketed(112500.0 + (f - 1000000.0) * 0.30,
                [Slab("0 - 2,50,000", "0%", 0.0),
                 Slab("2,50,001 - 5,00,000", "5%", 12500.0),
                 Slab("5,00,001 - 10,00,000", "20%", 100000.0),
                 Slab("Above 10,00,000", "30%", (f - 1000000.0) * 0.30)])
  }

  /** The income the old regime's brackets apply to: the taxable income less the standard deduction, floored at 0. */
  function FinalTaxableIncome(taxableIncome: real): (f: real)
    ensures f >= 0.0 && f >= taxableIncome - StandardDeduction
  {
    Max0(taxableIncome - StandardDeduction)
  }

  /**
   * `calculateOldTaxRegime`: the standard deduction, the brackets, then 4% cess on the bracket
   * tax; the rate's base is the final taxable income. `deductions` is not used, as in the source.
   */
  function CalculateOldTaxRegime(taxableIncome: real, deductions: real): (r: TaxResult)
    ensures r.details.cess.Some? && r.details.cess.value.rate == "4%"
    ensures r.details.standardDeduction == Some(DeductionEntry(50000.0, "Standard Deduction"))
    ensures FinalTaxableIncome(taxableIncome) == 0.0 ==> r.effectiveTaxRate == 0.0
  {
    var f := FinalTaxableIncome(taxableIncome);
    var b := OldRegimeBrackets(f);
    var cess := b.tax * CessRate;
    var taxAmount := b.tax + cess;
    TaxResult(Round(taxAmount), EffectiveRate(taxAmount, f),
              Details(b.slabs,
                      Some(CessEntry("Health and Education Cess", "4%", cess)),
                      Some(DeductionEntry(StandardDeduction, "Standard Deduction"))))
  }
}
