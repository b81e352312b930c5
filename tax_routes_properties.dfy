/**
 * What the route handlers promise: which requests `/calculate` rejects, how it dispatches
 * and what it stores; that `/history` shows only the caller's matching records, newest
 * first, in consecutive pages; that `/stats` groups cover the caller's records exactly;
 * that a delete removes only the caller's record; and that no handler lets one user's
 * records affect what another user sees.
 */
module TaxRoutesProperties {
  import opened Wrappers
  import opened Money
  import opened Brackets
  import opened TaxEngine
  import opened TaxEngineProperties
  import opened TaxRecordModel
  import opened TaxRoutes

  // ---------------------------------------------------------------------------------
  // POST /calculate

  /**
   * `/calculate` rejects a request with a missing name or income (a zero income counts as
   * missing), then one with a negative income, then one with negative deductions, and
   * accepts every other one; an accepted request has a positive income.
   */
  lemma CalculateRejectsExactly(req: CalcRequest)
    ensures Compute(req) == Failure(MissingNameOrIncome) <==> NameMissing(req) || IncomeMissing(req)
    ensures Compute(req) == Failure(NegativeIncome) <==>
              !NameMissing(req) && !IncomeMissing(req) && req.income.value < 0.0
    ensures Compute(req) == Failure(NegativeDeductions) <==>
              !NameMissing(req) && !IncomeMissing(req) && req.income.value > 0.0 && DeductionsOf(req) < 0.0
    ensures Compute(req).Success? <==>
              !NameMissing(req) && !IncomeMissing(req) && req.income.value > 0.0 && DeductionsOf(req) >= 0.0
  {
  }

  /**
   * An accepted request is computed on the taxable income `max(0, income - deductions)`,
   * which lies between 0 and the income: with the new schedule when the regime is `'new'`
   * (also its default), and with the old schedule, the standard deduction and the cess for
   * any other regime. The tax amount is the schedule's tax rounded, never negative, and the
   * effective rate lies between 0 and 31.2 percent.
   */
  lemma CalculateDispatch(req: CalcRequest)
    requires Compute(req).Success?
    ensures var c := Compute(req).value;
            && c.userName == req.userName.value && c.income == req.income.value
            && c.taxRegime == RegimeOf(req) && c.deductions == DeductionsOf(req)
            && 0.0 <= c.taxableIncome <= c.income
            && c.taxableIncome >= c.income - c.deductions
            && (c.taxableIncome == 0.0 || c.taxableIncome == c.income - c.deductions)
            && (c.taxRegime == "new" ==>
                  && c.taxAmount == Round(MarginalTax(NewRegimeSchedule, c.taxableIncome))
                  && c.calculationDetails.slabs == RefSlabs(NewRegimeSchedule, c.taxableIncome)
                  && c.calculationDetails.cess.None?)
            && (c.taxRegime != "new" ==>
                  && c.taxAmount == Round(1.04 * MarginalTax(OldRegimeSchedule, FinalTaxableIncome(c.taxableIncome)))
                  && c.calculationDetails.slabs == RefSlabs(OldRegimeSchedule, FinalTaxableIncome(c.taxableIncome))
                  && c.calculationDetails.cess.Some?)
            && c.taxAmount >= 0
            && 0.0 <= c.effectiveTaxRate <= 31.2
  {
    var c := Compute(req).value;
    if RegimeOf(req) == "new" {
      CalculateNewTaxRegimeSpec(c.taxableIncome);
    } else {
      CalculateOldTaxRegimeSpec(c.taxableIncome, c.deductions);
    }
  }

  /**
   * `/calculate` stores a record exactly when the request is accepted, its regime is
   * `'old'` or `'new'`, and its name, once trimmed, is non-empty and at most 100 UTF-16
   * units long: the engine's outputs always meet the schema's minimums.
   */
  lemma CalculateSavesExactly(user: UserId, req: CalcRequest, id: RecordId, now: int)
    ensures CalculateOutcome(user, req, id, now).Created? <==>
              && Compute(req).Success?
              && RegimeOf(req) in RegimeValues
              && Trim(req.userName.value) != []
              && Utf16Length(Trim(req.userName.value)) <= MaxUserNameLength
  {
    if Compute(req).Success? {
      CalculateDispatch(req);
      ValidateAcceptsExactly(RecordDraft(user, Compute(req).value), id, now);
    }
  }

  /**
   * A stored record belongs to the caller, has the given id and creation time, satisfies
   * every schema constraint and holds the computation, with the name trimmed; the response
   * carries the computation with the name as sent.
   */
  lemma CreatedRecord(user: UserId, req: CalcRequest, id: RecordId, now: int)
    requires CalculateOutcome(user, req, id, now).Created?
    ensures var o := CalculateOutcome(user, req, id, now);
            var c, r := o.data, o.record;
            && Compute(req) == Success(c)
            && ValidRecord(r)
            && r.id == id && r.date == now && r.user == user
            && r.userName == Trim(c.userName) && r.income == c.income && r.taxRegime == c.taxRegime
            && r.deductions == c.deductions && r.taxableIncome == c.taxableIncome
            && r.taxAmount == c.taxAmount as real && r.effectiveTaxRate == c.effectiveTaxRate
            && r.calculationDetails == c.calculationDetails
  {
    ValidateProducesValidRecord(RecordDraft(user, Compute(req).value), id, now);
  }

  /**
   * A regime other than `'new'` and `'old'` passes the handler's checks and is computed
   * exactly as `'old'` would be, but the record then fails the schema's enum check, so
   * nothing is stored and the response is the save failure.
   */
  lemma UnknownRegimeComputedAsOld(req: CalcRequest)
    requires Compute(req).Success? && RegimeOf(req) != "new"
    ensures Compute(req) == Success(Compute(req.(taxRegime := Some("old"))).value.(taxRegime := RegimeOf(req)))
  {
  }

  /**
   * A computation in a regime other than `'new'` and `'old'` is not stored: the save fails,
   * on the required check for an empty regime and on the enum check for any other.
   */
  lemma UnknownRegimeNotSaved(user: UserId, req: CalcRequest, id: RecordId, now: int)
    requires Compute(req).Success? && RegimeOf(req) !in RegimeValues
    ensures var o := CalculateOutcome(user, req, id, now);
            && o.SaveFailed?
            && (RegimeOf(req) == [] ==>
                  FieldError("taxRegime", Required, "Tax regime must be specified") in o.errors)
            && (RegimeOf(req) != [] ==>
                  FieldError("taxRegime", NotInEnum, EnumMessage(RegimeOf(req))) in o.errors)
  {
    ValidateRejectsUnknownRegime(RecordDraft(user, Compute(req).value), id, now);
  }

  /** The three 400 responses carry distinct, non-empty `error` texts, so each names its reason. */
  lemma BadRequestMessagesDistinct(a: BadRequest, b: BadRequest)
    ensures a.Message() != []
    ensures a.Message() == b.Message() ==> a == b
  {
  }

  // ---------------------------------------------------------------------------------
  // GET /history

  /** With a positive limit, `/history` fails exactly for a page number below 1. */
  lemma HistoryRejectsExactly(s: seq<TaxRecord>, owner: UserId, q: HistoryQuery, nameMatches: (string, string) -> bool)
    requires LimitOf(q) > 0
    ensures History(s, owner, q, nameMatches).Failure? <==> PageOf(q) < 1
  {
    NegativeExactlyWhen(PageOf(q) - 1, LimitOf(q));
  }

  /** A product with a positive factor is negative exactly when the other factor is. */
  lemma NegativeExactlyWhen(a: int, b: int)
    requires b > 0
    ensures a * b < 0 <==> a < 0
  {
    if a < 0 {
      assert a * b <= -b;
    } else {
      assert a * b >= 0;
    }
  }

  /** The matching list holds exactly the records in the query, each as often as stored, newest first. */
  lemma MatchingExactly(s: seq<TaxRecord>, owner: UserId, q: HistoryQuery, nameMatches: (string, string) -> bool)
    ensures var ms := Matching(s, owner, q, nameMatches);
            && DateDescending(ms)
            && multiset(ms) == multiset(Select(s, owner, q, nameMatches))
            && forall r :: r in ms <==> r in s && InQuery(r, owner, q, nameMatches)
  {
    var ms, sel := Matching(s, owner, q, nameMatches), Select(s, owner, q, nameMatches);
    forall r ensures r in ms <==> r in sel {
      assert r in ms <==> r in multiset(ms);
      assert r in sel <==> r in multiset(sel);
    }
  }

  /** The query keeps every matching record exactly as often as the store holds it, and no other. */
  lemma {:induction false} SelectCounts(s: seq<TaxRecord>, owner: UserId, q: HistoryQuery, nameMatches: (string, string) -> bool)
    ensures forall r :: multiset(Select(s, owner, q, nameMatches))[r] ==
                          (if InQuery(r, owner, q, nameMatches) then multiset(s)[r] else 0)
  {
    if s != [] {
      SelectCounts(s[1..], owner, q, nameMatches);
      assert s == [s[0]] + s[1..];
    }
  }

  /**
   * The sorted matches, whose length is `totalRecords`, hold each matching stored record
   * exactly as often as the store does, and no other record.
   */
  lemma MatchingCounts(s: seq<TaxRecord>, owner: UserId, q: HistoryQuery, nameMatches: (string, string) -> bool)
    ensures forall r :: multiset(Matching(s, owner, q, nameMatches))[r] ==
                          (if InQuery(r, owner, q, nameMatches) then multiset(s)[r] else 0)
  {
    SelectCounts(s, owner, q, nameMatches);
  }

  /**
   * A page is the window of the matching records, sorted newest first, that starts after
   * `(page - 1) * limit` of them and holds `limit` of them (all for limit 0, `-limit` for a
   * negative one), or what is left; the total counts every match.
   */
  lemma HistoryPageWindow(s: seq<TaxRecord>, owner: UserId, q: HistoryQuery, nameMatches: (string, string) -> bool)
    requires History(s, owner, q, nameMatches).Success?
    ensures var p, ms, skip := History(s, owner, q, nameMatches).value, Matching(s, owner, q, nameMatches), SkipOf(q);
            && skip >= 0
            && |p.records| == (if skip < |ms| then PageCount(LimitOf(q), |ms| - skip) else 0)
            && (forall i :: 0 <= i < |p.records| ==> skip + i < |ms| && p.records[i] == ms[skip + i])
            && p.pagination.totalRecords == |ms|
            && p.pagination.currentPage == PageOf(q)
  {
  }

  /** With a positive limit a page holds at most `limit` records. */
  lemma HistoryPageSize(s: seq<TaxRecord>, owner: UserId, q: HistoryQuery, nameMatches: (string, string) -> bool)
    requires History(s, owner, q, nameMatches).Success? && LimitOf(q) > 0
    ensures |History(s, owner, q, nameMatches).value.records| <= LimitOf(q)
  {
    HistoryPageWindow(s, owner, q, nameMatches);
  }

  /** `/history` returns its records newest first. */
  lemma HistorySorted(s: seq<TaxRecord>, owner: UserId, q: HistoryQuery, nameMatches: (string, string) -> bool)
    requires History(s, owner, q, nameMatches).Success?
    ensures DateDescending(History(s, owner, q, nameMatches).value.records)
  {
    HistoryPageWindow(s, owner, q, nameMatches);
    var p, ms, skip := History(s, owner, q, nameMatches).value, Matching(s, owner, q, nameMatches), SkipOf(q);
    forall i, j | 0 <= i < j < |p.records| ensures p.records[i].date >= p.records[j].date {
      assert p.records[i] == ms[skip + i] && p.records[j] == ms[skip + j];
    }
  }

  /** Every record `/history` returns is a stored record of the caller that matches the filters. */
  lemma HistoryOnlyOwnRecords(s: seq<TaxRecord>, owner: UserId, q: HistoryQuery, nameMatches: (string, string) -> bool)
    requires History(s, owner, q, nameMatches).Success?
    ensures var p := History(s, owner, q, nameMatches).value;
            forall i :: 0 <= i < |p.records| ==>
              p.records[i] in s && p.records[i].user == owner && InQuery(p.records[i], owner, q, nameMatches)
  {
    HistoryPageWindow(s, owner, q, nameMatches);
    MatchingExactly(s, owner, q, nameMatches);
    var p, ms := History(s, owner, q, nameMatches).value, Matching(s, owner, q, nameMatches);
    forall i | 0 <= i < |p.records| ensures p.records[i] in s && InQuery(p.records[i], owner, q, nameMatches) {
      assert p.records[i] in ms;
    }
  }

  /**
   * Pages of a positive limit cut the sorted matches into consecutive pieces: the match at
   * position `k` is entry `k % limit` of page `k / limit + 1`.
   */
  lemma HistoryPagesPartition(s: seq<TaxRecord>, owner: UserId, q: HistoryQuery, nameMatches: (string, string) -> bool, k: nat)
    requires LimitOf(q) > 0 && k < |Matching(s, owner, q, nameMatches)|
    requires PageOf(q) == k / LimitOf(q) + 1
    ensures History(s, owner, q, nameMatches).Success?
    ensures k % LimitOf(q) < |History(s, owner, q, nameMatches).value.records|
    ensures History(s, owner, q, nameMatches).value.records[k % LimitOf(q)] == Matching(s, owner, q, nameMatches)[k]
  {
    var l := LimitOf(q);
    assert SkipOf(q) == (k / l) * l;
    assert SkipOf(q) + k % l == k;
    HistoryPageWindow(s, owner, q, nameMatches);
  }

  /** `a <= b` scaled by a positive factor. */
  lemma ScaleMonotone(a: real, b: real, c: real)
    requires a <= b && c > 0.0
    ensures a * c <= b * c
  {
  }

  /**
   * With a positive limit the page count is the least number of pages that hold every
   * record: `(totalPages - 1) * limit < total <= totalPages * limit`.
   */
  lemma TotalPagesBounds(total: nat, limit: int)
    requires limit > 0
    ensures TotalPages(total, limit).Some?
    ensures (TotalPages(total, limit).value - 1) * limit < total <= TotalPages(total, limit).value * limit
  {
    var x := total as real / limit as real;
    var c := Ceil(x);
    assert x * limit as real == total as real;
    ScaleMonotone(x, c as real, limit as real);
    ScaleMonotone(c as real - 1.0, x, limit as real);
    assert (c as real - 1.0) * limit as real != x * limit as real by {
      assert c as real - 1.0 < x;
    }
    assert (c * limit) as real == c as real * limit as real;
    assert ((c - 1) * limit) as real == (c as real - 1.0) * limit as real;
  }

  /** Selecting among the caller's records selects what selecting among all records does. */
  lemma {:induction false} SelectOfOwned(s: seq<TaxRecord>, owner: UserId, q: HistoryQuery, nameMatches: (string, string) -> bool)
    ensures Select(OwnedBy(s, owner), owner, q, nameMatches) == Select(s, owner, q, nameMatches)
  {
    if s != [] {
      SelectOfOwned(s[1..], owner, q, nameMatches);
      if s[0].user == owner {
        assert ([s[0]] + OwnedBy(s[1..], owner))[1..] == OwnedBy(s[1..], owner);
      }
    }
  }

  /** What `/history` shows a user depends only on that user's records. */
  lemma HistoryIgnoresOthers(s: seq<TaxRecord>, t: seq<TaxRecord>, owner: UserId, q: HistoryQuery, nameMatches: (string, string) -> bool)
    requires OwnedBy(s, owner) == OwnedBy(t, owner)
    ensures History(s, owner, q, nameMatches) == History(t, owner, q, nameMatches)
  {
    SelectOfOwned(s, owner, q, nameMatches);
    SelectOfOwned(t, owner, q, nameMatches);
  }

  // ---------------------------------------------------------------------------------
  // GET /stats

  /** What `/stats` shows a user depends only on that user's records. */
  lemma StatsIgnoresOthers(s: seq<TaxRecord>, t: seq<TaxRecord>, owner: UserId)
    requires OwnedBy(s, owner) == OwnedBy(t, owner)
    ensures StatsOf(s, owner) == StatsOf(t, owner)
  {
  }

  /** `/stats` has no overall group and no regime groups exactly when the caller has no records. */
  lemma StatsEmptyExactly(s: seq<TaxRecord>, owner: UserId)
    ensures StatsOf(s, owner).overall.None? <==> forall r :: r in s ==> r.user != owner
    ensures StatsOf(s, owner).overall.None? ==> StatsOf(s, owner).byRegime == []
  {
    var own := OwnedBy(s, owner);
    if own != [] {
      assert own[0] in s;
    }
  }

  /** A sum of incomes of valid records is never negative. */
  lemma {:induction false} TotalIncomeNonNegative(s: seq<TaxRecord>)
    requires forall i :: 0 <= i < |s| ==> ValidRecord(s[i])
    ensures TotalIncome(s) >= 0.0
  {
    if s != [] {
      TotalIncomeNonNegative(s[1..]);
    }
  }

  /** A sum of tax amounts of valid records is never negative. */
  lemma {:induction false} TotalTaxAmountNonNegative(s: seq<TaxRecord>)
    requires forall i :: 0 <= i < |s| ==> ValidRecord(s[i])
    ensures TotalTaxAmount(s) >= 0.0
  {
    if s != [] {
      TotalTaxAmountNonNegative(s[1..]);
    }
  }

  /** A sum of effective rates of valid records is never negative. */
  lemma {:induction false} TotalRateNonNegative(s: seq<TaxRecord>)
    requires forall i :: 0 <= i < |s| ==> ValidRecord(s[i])
    ensures TotalRate(s) >= 0.0
  {
    if s != [] {
      TotalRateNonNegative(s[1..]);
    }
  }

  /** An average of a non-negative total over a positive count is non-negative and scales back to the total. */
  lemma AverageOf(total: real, n: nat)
    requires n > 0
    ensures total >= 0.0 ==> total / n as real >= 0.0
    ensures (total / n as real) * n as real == total
  {
  }

  /** Over a store of valid records, the overall totals and averages are never negative. */
  lemma StatsOverallNonNegative(s: seq<TaxRecord>, owner: UserId)
    requires forall i :: 0 <= i < |s| ==> ValidRecord(s[i])
    requires StatsOf(s, owner).overall.Some?
    ensures var o := StatsOf(s, owner).overall.value;
            o.totalIncome >= 0.0 && o.totalTax >= 0.0 && o.avgTaxRate >= 0.0 && o.avgIncome >= 0.0
  {
    var own := OwnedBy(s, owner);
    OwnedValid(s, owner);
    TotalIncomeNonNegative(own);
    TotalTaxAmountNonNegative(own);
    TotalRateNonNegative(own);
    AverageOf(TotalIncome(own), |own|);
    AverageOf(TotalRate(own), |own|);
  }

  /** The caller's records of a store of valid records are valid. */
  lemma OwnedValid(s: seq<TaxRecord>, owner: UserId)
    requires forall i :: 0 <= i < |s| ==> ValidRecord(s[i])
    ensures forall i :: 0 <= i < |OwnedBy(s, owner)| ==> ValidRecord(OwnedBy(s, owner)[i])
  {
    var own := OwnedBy(s, owner);
    forall i | 0 <= i < |own| ensures ValidRecord(own[i]) {
      assert own[i] in s;
    }
  }

  /** The sum of the group counts. */
  function GroupTotal(groups: seq<RegimeStat>): nat
  {
    if groups == [] then 0 else GroupTotal(groups[..|groups| - 1]) + groups[|groups| - 1].count
  }

  /** How many records of `s` have one of the regimes `gs`, one regime at a time. */
  function CountIn(s: seq<TaxRecord>, gs: seq<string>): nat
  {
    if gs == [] then 0 else CountIn(s, gs[..|gs| - 1]) + |WithRegime(s, gs[|gs| - 1])|
  }

  /** A regime no record has has an empty group. */
  lemma {:induction false} WithRegimeAbsent(s: seq<TaxRecord>, g: string)
    requires forall r :: r in s ==> r.taxRegime != g
    ensures WithRegime(s, g) == []
  {
    if s != [] {
      assert s[0] in s;
      WithRegimeAbsent(s[1..], g);
    }
  }

  /** Appending a record appends it to the group of its regime. */
  lemma {:induction false} WithRegimeSnoc(s: seq<TaxRecord>, x: TaxRecord, g: string)
    ensures WithRegime(s + [x], g) == WithRegime(s, g) + (if x.taxRegime == g then [x] else [])
  {
    if s == [] {
      assert [x][1..] == [];
    } else {
      assert (s + [x])[1..] == s[1..] + [x];
      WithRegimeSnoc(s[1..], x, g);
    }
  }

  /** Appending a record adds one to the count of distinct regimes exactly when its regime is among them. */
  lemma {:induction false} CountInSnoc(s: seq<TaxRecord>, x: TaxRecord, gs: seq<string>)
    requires forall i, j :: 0 <= i < j < |gs| ==> gs[i] != gs[j]
    ensures CountIn(s + [x], gs) == CountIn(s, gs) + (if x.taxRegime in gs then 1 else 0)
  {
    if gs != [] {
      var n := |gs| - 1;
      var front, g := gs[..n], gs[n];
      assert gs == front + [g];
      CountInSnoc(s, x, front);
      WithRegimeSnoc(s, x, g);
      if x.taxRegime == g {
        forall i | 0 <= i < n ensures front[i] != g {
          assert front[i] == gs[i];
        }
      }
    }
  }

  /** The groups of the distinct regimes of `s` together hold every record of `s` once. */
  lemma {:induction false} RegimesPartition(s: seq<TaxRecord>)
    ensures CountIn(s, RegimesOf(s)) == |s|
  {
    if s != [] {
      var front, x := s[..|s| - 1], s[|s| - 1];
      assert s == front + [x];
      var gs := RegimesOf(front);
      RegimesPartition(front);
      CountInSnoc(front, x, gs);
      if x.taxRegime !in gs {
        assert forall r :: r in front ==> r.taxRegime != x.taxRegime;
        WithRegimeAbsent(front, x.taxRegime);
        WithRegimeSnoc(front, x, x.taxRegime);
        assert (gs + [x.taxRegime])[..|gs|] == gs;
      }
    }
  }

  /** Summing the counts of regime groups sums the sizes of the regimes' record lists. */
  lemma {:induction false} GroupTotalIsCount(s: seq<TaxRecord>, gs: seq<string>, groups: seq<RegimeStat>)
    requires |groups| == |gs|
    requires forall i :: 0 <= i < |gs| ==> groups[i] == RegimeGroup(s, gs[i])
    ensures GroupTotal(groups) == CountIn(s, gs)
  {
    if gs != [] {
      GroupTotalIsCount(s, gs[..|gs| - 1], groups[..|groups| - 1]);
    }
  }

  /** The counts of the regime groups of `/stats` add up to the number of the caller's records. */
  lemma StatsGroupsTotal(s: seq<TaxRecord>, owner: UserId)
    ensures GroupTotal(StatsOf(s, owner).byRegime) == |OwnedBy(s, owner)|
  {
    var own := OwnedBy(s, owner);
    GroupTotalIsCount(own, RegimesOf(own), StatsOf(s, owner).byRegime);
    RegimesPartition(own);
  }

  /** No regime has two groups in `/stats`, and every group holds at least one record. */
  lemma StatsGroupsDistinct(s: seq<TaxRecord>, owner: UserId)
    ensures var groups := StatsOf(s, owner).byRegime;
            && (forall i, j :: 0 <= i < j < |groups| ==> groups[i].regime != groups[j].regime)
            && (forall i :: 0 <= i < |groups| ==> groups[i].count > 0)
  {
    var groups, own := StatsOf(s, owner).byRegime, OwnedBy(s, owner);
    var gs := RegimesOf(own);
    forall i | 0 <= i < |groups| ensures groups[i].count > 0 {
      assert gs[i] in gs;
      var r :| r in own && r.taxRegime == gs[i];
      assert r in WithRegime(own, gs[i]);
    }
  }

  /** Every regime the caller used has a group in `/stats`. */
  lemma StatsGroupsCover(s: seq<TaxRecord>, owner: UserId)
    ensures var groups := StatsOf(s, owner).byRegime;
            forall r :: r in OwnedBy(s, owner) ==> exists i :: 0 <= i < |groups| && groups[i].regime == r.taxRegime
  {
    var groups, own := StatsOf(s, owner).byRegime, OwnedBy(s, owner);
    var gs := RegimesOf(own);
    forall r | r in own ensures exists i :: 0 <= i < |groups| && groups[i].regime == r.taxRegime {
      assert r.taxRegime in gs;
      var i :| 0 <= i < |gs| && gs[i] == r.taxRegime;
      assert groups[i].regime == r.taxRegime;
    }
  }

  // ---------------------------------------------------------------------------------
  // DELETE /:id

  /** Selecting the records of an owner distributes over concatenation. */
  lemma {:induction false} OwnedByConcat(a: seq<TaxRecord>, b: seq<TaxRecord>, owner: UserId)
    ensures OwnedBy(a + b, owner) == OwnedBy(a, owner) + OwnedBy(b, owner)
  {
    if a == [] {
      assert a + b == b;
    } else {
      assert (a + b)[1..] == a[1..] + b;
      OwnedByConcat(a[1..], b, owner);
    }
  }

  /** The caller's records are every stored record of the caller, each as often as stored. */
  lemma {:induction false} OwnedByCounts(s: seq<TaxRecord>, owner: UserId)
    ensures forall r :: multiset(OwnedBy(s, owner))[r] == (if r.user == owner then multiset(s)[r] else 0)
  {
    if s != [] {
      OwnedByCounts(s[1..], owner);
      assert s == [s[0]] + s[1..];
    }
  }

  /** The overall `totalRecords` of `/stats` is the number of records the caller has stored. */
  lemma StatsTotalRecords(s: seq<TaxRecord>, owner: UserId)
    requires StatsOf(s, owner).overall.Some?
    ensures StatsOf(s, owner).overall.value.totalRecords == |OwnedBy(s, owner)|
    ensures forall r :: multiset(OwnedBy(s, owner))[r] == (if r.user == owner then multiset(s)[r] else 0)
  {
    OwnedByCounts(s, owner);
  }

  /** Appending a record of one user leaves every other user's records as they were. */
  lemma AppendIsolation(s: seq<TaxRecord>, r: TaxRecord, other: UserId)
    requires other != r.user
    ensures OwnedBy(s + [r], other) == OwnedBy(s, other)
  {
    OwnedByConcat(s, [r], other);
    assert OwnedBy([r], other) == [];
  }

  /**
   * A delete either finds no record with the id and owner and leaves the store unchanged,
   * or removes exactly the first such record and nothing else.
   */
  lemma DeleteOwnedSpec(s: seq<TaxRecord>, id: RecordId, owner: UserId)
    ensures FindOwned(s, id, owner).None? ==> DeleteOwned(s, id, owner) == s
    ensures FindOwned(s, id, owner).Some? ==>
              var k := FindOwned(s, id, owner).value;
              && |DeleteOwned(s, id, owner)| == |s| - 1
              && multiset(DeleteOwned(s, id, owner)) + multiset{s[k]} == multiset(s)
  {
    if FindOwned(s, id, owner).Some? {
      RemoveAt(s, FindOwned(s, id, owner).value);
    }
  }

  /** Removing the element at `k` shortens a sequence by one and removes exactly that element. */
  lemma RemoveAt<T>(s: seq<T>, k: nat)
    requires k < |s|
    ensures |s[..k] + s[k + 1..]| == |s| - 1
    ensures multiset(s[..k] + s[k + 1..]) + multiset{s[k]} == multiset(s)
  {
    assert s == s[..k] + [s[k]] + s[k + 1..];
  }

  /** An id that exists only for other users is treated exactly like an id that does not exist. */
  lemma DeleteForeignIsNotFound(s: seq<TaxRecord>, id: RecordId, owner: UserId)
    requires forall i :: 0 <= i < |s| && s[i].id == id ==> s[i].user != owner
    ensures FindOwned(s, id, owner).None? && DeleteOwned(s, id, owner) == s
  {
  }

  /** A delete by one user leaves every other user's records as they were, in order. */
  lemma DeleteIsolation(s: seq<TaxRecord>, id: RecordId, owner: UserId, other: UserId)
    requires other != owner
    ensures OwnedBy(DeleteOwned(s, id, owner), other) == OwnedBy(s, other)
  {
    if FindOwned(s, id, owner).Some? {
      var k := FindOwned(s, id, owner).value;
      assert s == s[..k] + ([s[k]] + s[k + 1..]);
      OwnedByConcat(s[..k], [s[k]] + s[k + 1..], other);
      OwnedByConcat([s[k]], s[k + 1..], other);
      OwnedByConcat(s[..k], s[k + 1..], other);
      assert OwnedBy([s[k]], other) == [];
    }
  }

  /**
   * Over records with distinct ids, a successful delete leaves no record with that id and
   * keeps every other record; any delete keeps the ids distinct and adds no record.
   */
  lemma DeleteRemovesRecord(s: seq<TaxRecord>, id: RecordId, owner: UserId)
    requires DistinctIds(s)
    ensures var t := DeleteOwned(s, id, owner);
            && DistinctIds(t)
            && (forall i :: 0 <= i < |t| ==> t[i] in s)
            && (FindOwned(s, id, owner).Some? ==>
                  && (forall i :: 0 <= i < |t| ==> t[i].id != id)
                  && (forall i :: 0 <= i < |s| && s[i].id != id ==> s[i] in t))
  {
    if FindOwned(s, id, owner).Some? {
      var k := FindOwned(s, id, owner).value;
      var t := DeleteOwned(s, id, owner);
      assert |t| == |s| - 1;
      assert forall i :: 0 <= i < |t| ==> t[i] == (if i < k then s[i] else s[i + 1]);
      forall i | 0 <= i < |s| && s[i].id != id ensures s[i] in t {
        assert i != k;
        assert s[i] == t[if i < k then i else i - 1];
      }
    }
  }
}
