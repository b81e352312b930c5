/**
 * A generic progressive (marginal-bracket) schedule and the reducer that taxes an amount
 * under it. Both regimes of the tax engine are stated against this reference: the engine's
 * hand-written if-chains are proved equal to the reducer run over each regime's table.
 */
module Brackets {
  import opened Money

  /**
   * One bracket: the part of the income above `lower`, up to the next bracket's `lower`
   * (without bound for the last bracket), is taxed at `rate`. `range` and `rateLabel`
   * are the labels the breakdown shows for it.
   */
  datatype Bracket = Bracket(lower: real, rate: real, range: string, rateLabel: string)

  /** One entry of a per-slab breakdown: the labels of a bracket and the tax charged in it. */
  datatype Slab = Slab(range: string, rate: string, tax: real)

  /** A schedule starts at zero, its lower bounds increase and no rate is negative. */
  predicate WellFormed(t: seq<Bracket>)
  {
    && |t| > 0
    && t[0].lower == 0.0
    && (forall i, j :: 0 <= i < j < |t| ==> t[i].lower < t[j].lower)
    && (forall i :: 0 <= i < |t| ==> t[i].rate >= 0.0)
  }

  /** The part of `x` that falls into bracket `i`: above its lower bound, up to the next one. */
  function Portion(t: seq<Bracket>, i: nat, x: real): (p: real)
    requires i < |t|
    ensures x <= t[i].lower ==> p == 0.0
  {
    if x <= t[i].lower then 0.0
    else if i + 1 == |t| then x - t[i].lower
    else if x <= t[i + 1].lower then x - t[i].lower
    else t[i + 1].lower - t[i].lower
  }

  /** The tax charged in bracket `i`. */
  function SlabTax(t: seq<Bracket>, i: nat, x: real): real
    requires i < |t|
  {
    t[i].rate * Portion(t, i, x)
  }

  /** The tax charged by the first `n` brackets together. */
  function TaxOfFirst(t: seq<Bracket>, n: nat, x: real): real
    requires n <= |t|
  {
    if n == 0 then 0.0 else TaxOfFirst(t, n - 1, x) + SlabTax(t, n - 1, x)
  }

  /** The tax on `x` under schedule `t`: every bracket's rate on every bracket's portion. */
  function MarginalTax(t: seq<Bracket>, x: real): real
  {
    TaxOfFirst(t, |t|, x)
  }

  /**
   * The tax charged by the first `n` brackets when all of them are full: the fixed base
   * amount at which bracket `n` starts.
   */
  function CumulativeBase(t: seq<Bracket>, n: nat): real
    requires n < |t|
  {
    if n == 0 then 0.0 else CumulativeBase(t, n - 1) + t[n - 1].rate * (t[n].lower - t[n - 1].lower)
  }

  /** Counts the brackets from `i` on whose lower bound lies below `x`. */
  function CountBelow(t: seq<Bracket>, i: nat, x: real): (n: nat)
    requires i <= |t|
    ensures n <= |t| - i
    decreases |t| - i
  {
    if i == |t| then 0
    else (if t[i].lower < x then 1 else 0) + CountBelow(t, i + 1, x)
  }

  /**
   * The number of slab entries a breakdown of `x` shows: the first bracket always, and
   * every further bracket whose lower bound `x` exceeds.
   */
  function SlabCount(t: seq<Bracket>, x: real): (k: nat)
    requires |t| > 0
    ensures 1 <= k <= |t|
  {
    1 + CountBelow(t, 1, x)
  }

  /** The breakdown entry of bracket `i`. */
  function RefSlab(t: seq<Bracket>, i: nat, x: real): Slab
    requires i < |t|
  {
    Slab(t[i].range, t[i].rateLabel, SlabTax(t, i, x))
  }

  /** The reference breakdown of `x`: one entry per bracket, up to the one holding `x`. */
  function RefSlabs(t: seq<Bracket>, x: real): seq<Slab>
    requires |t| > 0
  {
    seq(SlabCount(t, x), i requires 0 <= i < SlabCount(t, x) => RefSlab(t, i, x))
  }

  /** The sum of the `tax` fields of a breakdown. */
  function SumTax(s: seq<Slab>): real
  {
    if |s| == 0 then 0.0 else SumTax(s[..|s| - 1]) + s[|s| - 1].tax
  }

  // ---------------------------------------------------------------------------------
  // Properties of the reducer

  /** The portion of a bracket never shrinks as the amount grows. */
  lemma PortionMonotone(t: seq<Bracket>, i: nat, x: real, y: real)
    requires WellFormed(t) && i < |t| && x <= y
    ensures Portion(t, i, x) <= Portion(t, i, y)
  {
    if i + 1 < |t| { assert t[i].lower < t[i + 1].lower; }
  }

  /** The tax of the first `n` brackets never shrinks as the amount grows. */
  lemma {:induction false} TaxOfFirstMonotone(t: seq<Bracket>, n: nat, x: real, y: real)
    requires WellFormed(t) && n <= |t| && x <= y
    ensures TaxOfFirst(t, n, x) <= TaxOfFirst(t, n, y)
  {
    if n > 0 {
      TaxOfFirstMonotone(t, n - 1, x, y);
      SlabTaxMonotone(t, n - 1, x, y);
    }
  }

  /** The tax of one bracket never shrinks as the amount grows. */
  lemma SlabTaxMonotone(t: seq<Bracket>, i: nat, x: real, y: real)
    requires WellFormed(t) && i < |t| && x <= y
    ensures SlabTax(t, i, x) <= SlabTax(t, i, y)
  {
    PortionMonotone(t, i, x, y);
    ScaleByRate(t[i].rate, Portion(t, i, x), Portion(t, i, y));
  }

  /** Multiplying by a non-negative rate keeps the order of two amounts. */
  lemma ScaleByRate(rate: real, a: real, b: real)
    requires rate >= 0.0 && a <= b
    ensures rate * a <= rate * b
  {
  }

  /** The reducer is non-decreasing in the amount taxed. */
  lemma MarginalTaxMonotone(t: seq<Bracket>, x: real, y: real)
    requires WellFormed(t) && x <= y
    ensures MarginalTax(t, x) <= MarginalTax(t, y)
  {
    TaxOfFirstMonotone(t, |t|, x, y);
  }

  /** No tax is due on a non-positive amount. */
  lemma {:induction false} TaxOfFirstAtZero(t: seq<Bracket>, n: nat, x: real)
    requires WellFormed(t) && n <= |t| && x <= 0.0
    ensures TaxOfFirst(t, n, x) == 0.0
  {
    if n > 0 {
      TaxOfFirstAtZero(t, n - 1, x);
      assert Portion(t, n - 1, x) == 0.0 by {
        if n - 1 > 0 { assert t[0].lower < t[n - 1].lower; }
      }
    }
  }

  /** The tax on a non-negative amount is non-negative. */
  lemma MarginalTaxNonNegative(t: seq<Bracket>, x: real)
    requires WellFormed(t) && 0.0 <= x
    ensures 0.0 <= MarginalTax(t, x)
  {
    TaxOfFirstAtZero(t, |t|, 0.0);
    MarginalTaxMonotone(t, 0.0, x);
  }

  /** When `x` is at most bracket `i`'s lower bound, no bracket from `i` on counts. */
  lemma {:induction false} CountBelowNone(t: seq<Bracket>, i: nat, x: real)
    requires WellFormed(t) && i <= |t|
    requires i < |t| ==> x <= t[i].lower
    ensures CountBelow(t, i, x) == 0
    decreases |t| - i
  {
    if i < |t| {
      if i + 1 < |t| { assert t[i].lower < t[i + 1].lower; }
      CountBelowNone(t, i + 1, x);
    }
  }

  /** The brackets counted from `i` on are a prefix: all lie below `x`, and the next one does not. */
  lemma {:induction false} CountBelowPrefix(t: seq<Bracket>, i: nat, x: real)
    requires WellFormed(t) && i <= |t|
    ensures forall j :: i <= j < i + CountBelow(t, i, x) ==> t[j].lower < x
    ensures i + CountBelow(t, i, x) == |t| || x <= t[i + CountBelow(t, i, x)].lower
    decreases |t| - i
  {
    if i < |t| {
      if t[i].lower < x {
        CountBelowPrefix(t, i + 1, x);
      } else {
        CountBelowNone(t, i, x);
      }
    }
  }

  /**
   * The slab count is the index just past the bracket holding `x`: every bracket before it
   * lies below `x` (so `x` exceeds the last of them), and the bracket at the count does not.
   */
  lemma SlabCountPlacement(t: seq<Bracket>, x: real)
    requires WellFormed(t)
    ensures forall j :: 1 <= j < SlabCount(t, x) ==> t[j].lower < x
    ensures SlabCount(t, x) == |t| || x <= t[SlabCount(t, x)].lower
  {
    CountBelowPrefix(t, 1, x);
  }

  /** The placement conditions pin the slab count down: a `k` that meets them is the count. */
  lemma SlabCountIs(t: seq<Bracket>, x: real, k: nat)
    requires WellFormed(t) && 1 <= k <= |t|
    requires k == 1 || t[k - 1].lower < x
    requires k == |t| || x <= t[k].lower
    ensures SlabCount(t, x) == k
  {
    SlabCountPlacement(t, x);
  }

  /** Brackets past the slab count are empty: they charge no tax on `x`. */
  lemma SlabTaxPastCount(t: seq<Bracket>, x: real, j: nat)
    requires WellFormed(t) && SlabCount(t, x) <= j < |t|
    ensures SlabTax(t, j, x) == 0.0
  {
    SlabCountPlacement(t, x);
    var k := SlabCount(t, x);
    assert t[k].lower <= t[j].lower;
  }

  /** Summing a prefix of the reference breakdown gives the tax of that many brackets. */
  lemma {:induction false} SumTaxOfRefPrefix(t: seq<Bracket>, x: real, n: nat)
    requires WellFormed(t) && n <= SlabCount(t, x)
    ensures SumTax(RefSlabs(t, x)[..n]) == TaxOfFirst(t, n, x)
  {
    var s := RefSlabs(t, x);
    if n > 0 {
      SumTaxOfRefPrefix(t, x, n - 1);
      assert s[..n][..n - 1] == s[..n - 1];
    }
  }

  /** Brackets beyond the slab count add nothing to the tax. */
  lemma {:induction false} TaxOfFirstPastCount(t: seq<Bracket>, x: real, n: nat)
    requires WellFormed(t) && SlabCount(t, x) <= n <= |t|
    ensures TaxOfFirst(t, n, x) == TaxOfFirst(t, SlabCount(t, x), x)
  {
    if n > SlabCount(t, x) {
      TaxOfFirstPastCount(t, x, n - 1);
      SlabTaxPastCount(t, x, n - 1);
    }
  }

  /** The reference breakdown adds up to the marginal tax. */
  lemma SumTaxOfRefSlabs(t: seq<Bracket>, x: real)
    requires WellFormed(t)
    ensures SumTax(RefSlabs(t, x)) == MarginalTax(t, x)
  {
    var s := RefSlabs(t, x);
    SumTaxOfRefPrefix(t, x, |s|);
    assert s[..|s|] == s;
    TaxOfFirstPastCount(t, x, |t|);
  }

  /** When every bracket below `n` is full, the first `n` brackets charge the cumulative base. */
  lemma {:induction false} TaxOfFirstFull(t: seq<Bracket>, n: nat, x: real)
    requires WellFormed(t) && n < |t| && t[n].lower <= x
    ensures TaxOfFirst(t, n, x) == CumulativeBase(t, n)
  {
    if n > 0 {
      assert t[n - 1].lower < t[n].lower;
      TaxOfFirstFull(t, n - 1, x);
      assert Portion(t, n - 1, x) == t[n].lower - t[n - 1].lower;
    }
  }

  /**
   * The closed form behind the engine's if-chains: a non-negative amount in bracket `k` is
   * taxed the cumulative base of `k` plus `k`'s rate on the part above `k`'s lower bound.
   */
  lemma MarginalTaxInBracket(t: seq<Bracket>, x: real, k: nat)
    requires WellFormed(t) && k < |t| && 0.0 <= x
    requires k == 0 || t[k].lower < x
    requires k + 1 == |t| || x <= t[k + 1].lower
    ensures MarginalTax(t, x) == CumulativeBase(t, k) + t[k].rate * (x - t[k].lower)
  {
    SlabCountIs(t, x, k + 1);
    TaxOfFirstPastCount(t, x, |t|);
    TaxOfFirstFull(t, k, x);
  }
}
