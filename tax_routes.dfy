/**
 * The tax route handlers, on values: the validation and dispatch of `/calculate`, the
 * owner-scoped `/history` query with its sort and pagination, the `/stats` aggregation
 * and the owner-scoped delete. The store they act on is a sequence of records; the class
 * in `RecordStore` holds it and applies these functions to it.
 */
module TaxRoutes {
  import opened Wrappers
  import opened Money
  import opened TaxEngine
  import opened TaxRecordModel

  // ---------------------------------------------------------------------------------
  // POST /calculate

  /** The body of a `/calculate` request: `None` is a field the client left out. */
  datatype CalcRequest = CalcRequest(
    userName: Option<string>,
    income: Option<real>,
    taxRegime: Option<string>,
    deductions: Option<real>)

  /** The requests `/calculate` rejects before computing (status 400). */
  datatype BadRequest = MissingNameOrIncome | NegativeIncome | NegativeDeductions
  {
    /** The `error` text of the response. */
    function Message(): string
    {
      match this
      case MissingNameOrIncome => "User name and income are required"
      case NegativeIncome => "Income cannot be negative"
      case NegativeDeductions => "Deductions cannot be negative"
    }
  }

  /** The `data` of a successful `/calculate` response. */
  datatype Computation = Computation(
    userName: string,
    income: real,
    taxRegime: string,
    deductions: real,
    taxableIncome: real,
    taxAmount: int,
    effectiveTaxRate: real,
    calculationDetails: Details)

  /** What `/calculate` ends in: rejected (400), not saved because validation failed (500), or created (201). */
  datatype CalcOutcome =
    | Rejected(error: BadRequest)
    | SaveFailed(errors: seq<FieldError>)
    | Created(data: Computation, record: TaxRecord)

  /** The regime of a request: `'new'` when left out. */
  function RegimeOf(req: CalcRequest): string
  {
    if req.taxRegime.Some? then req.taxRegime.value else "new"
  }

  /** The deductions of a request: 0 when left out. */
  function DeductionsOf(req: CalcRequest): real
  {
    if req.deductions.Some? then req.deductions.value else 0.0
  }

  /** A name is missing when it is absent or the empty string (JavaScript falsy). */
  predicate NameMissing(req: CalcRequest)
  {
    req.userName.None? || req.userName.value == []
  }

  /** An income is missing when it is absent or zero (JavaScript falsy). */
  predicate IncomeMissing(req: CalcRequest)
  {
    req.income.None? || req.income.value == 0.0
  }

  /** Validation of the request, then the computation in the requested regime. */
  function Compute(req: CalcRequest): Result<Computation, BadRequest>
  {
    if NameMissing(req) || IncomeMissing(req) then Failure(MissingNameOrIncome)
    else if req.income.value < 0.0 then Failure(NegativeIncome)
    else if DeductionsOf(req) < 0.0 then Failure(NegativeDeductions)
    else
      var income, deductions, regime := req.income.value, DeductionsOf(req), RegimeOf(req);
      var taxableIncome := Max0(income - deductions);
      var result := if regime == "new" then CalculateNewTaxRegime(taxableIncome)
                    else CalculateOldTaxRegime(taxableIncome, deductions);
      Success(Computation(req.userName.value, income, regime, deductions, taxableIncome,
                          result.taxAmount, result.effectiveTaxRate, result.details))
  }

  /** The document `/calculate` builds for a computation, owned by the caller. */
  function RecordDraft(user: UserId, c: Computation): Draft
  {
    Draft(Some(user), Some(c.userName), Some(c.income), Some(c.taxRegime), Some(c.deductions),
          Some(c.taxableIncome), Some(c.taxAmount as real), Some(c.effectiveTaxRate),
          Some(c.calculationDetails))
  }

  /** The whole `/calculate` handler for `user`, with `id` the new record's id and `now` the clock. */
  function CalculateOutcome(user: UserId, req: CalcRequest, id: RecordId, now: int): CalcOutcome
  {
    match Compute(req)
    case Failure(e) => Rejected(e)
    case Success(c) =>
      match Validate(RecordDraft(user, c), id, now)
      case Failure(errs) => SaveFailed(errs)
      case Success(r) => Created(c, r)
  }

  // ---------------------------------------------------------------------------------
  // GET /history

  /** The query string of `/history`; `limit` and `page` already parsed to integers. */
  datatype HistoryQuery = HistoryQuery(
    userName: Option<string>,
    taxRegime: Option<string>,
    limit: Option<int>,
    page: Option<int>)

  /** The `pagination` object; `totalPages` is `None` when the division by `limit` is not finite. */
  datatype Pagination = Pagination(currentPage: int, totalPages: Option<int>, totalRecords: nat, recordsPerPage: int)

  /** A successful `/history` response. */
  datatype HistoryPage = HistoryPage(records: seq<TaxRecord>, pagination: Pagination)

  /** The store refuses a negative skip; the handler then fails (status 500). */
  datatype QueryError = NegativeSkip

  /**
   * Whether a record is in the query: the caller's own, and, when the parameters are
   * non-empty, matching the name pattern (`nameMatches(pattern, name)` stands for the
   * store's case-insensitive regular-expression match) and the regime.
   */
  predicate InQuery(r: TaxRecord, owner: UserId, q: HistoryQuery, nameMatches: (string, string) -> bool)
  {
    && r.user == owner
    && (q.userName.None? || q.userName.value == [] || nameMatches(q.userName.value, r.userName))
    && (q.taxRegime.None? || q.taxRegime.value == [] || r.taxRegime == q.taxRegime.value)
  }

  /** The records in the query, in store order. */
  function Select(s: seq<TaxRecord>, owner: UserId, q: HistoryQuery, nameMatches: (string, string) -> bool): (t: seq<TaxRecord>)
    ensures forall i :: 0 <= i < |t| ==> t[i] in s && InQuery(t[i], owner, q, nameMatches)
    ensures forall r :: r in s && InQuery(r, owner, q, nameMatches) ==> r in t
    ensures |t| <= |s|
  {
    if s == [] then []
    else
      var rest := Select(s[1..], owner, q, nameMatches);
      if InQuery(s[0], owner, q, nameMatches) then [s[0]] + rest else rest
  }

  /** Newest first: no record is older than one after it. */
  predicate DateDescending(s: seq<TaxRecord>)
  {
    forall i, j :: 0 <= i < j < |s| ==> s[i].date >= s[j].date
  }

  /** Inserts `r` into a newest-first sequence, after every record at least as new. */
  function InsertByDate(r: TaxRecord, s: seq<TaxRecord>): (t: seq<TaxRecord>)
    requires DateDescending(s)
    ensures |t| == |s| + 1
    ensures t[0] == r || (s != [] && t[0] == s[0])
    ensures DateDescending(t)
  {
    if s == [] then [r]
    else if s[0].date >= r.date then
      [s[0]] + InsertByDate(r, s[1..])
    else
      [r] + s
  }

  /** `sort({ date: -1 })`: the records newest first; records of equal date keep no promised order. */
  function SortByDateDesc(s: seq<TaxRecord>): (t: seq<TaxRecord>)
    ensures DateDescending(t)
    ensures multiset(t) == multiset(s)
  {
    if s == [] then []
    else
      assert s == [s[0]] + s[1..];
      var rest := SortByDateDesc(s[1..]);
      InsertPermutes(s[0], rest);
      InsertByDate(s[0], rest)
  }

  /** Insertion adds the record and keeps every other one. */
  lemma {:induction false} InsertPermutes(r: TaxRecord, s: seq<TaxRecord>)
    requires DateDescending(s)
    ensures multiset(InsertByDate(r, s)) == multiset(s) + multiset{r}
  {
    if s != [] && s[0].date >= r.date {
      InsertPermutes(r, s[1..]);
      assert s == [s[0]] + s[1..];
    }
  }

  /** `Math.ceil(total / limit)`, or `None` when `limit` is 0 and the quotient is not finite. */
  function TotalPages(total: nat, limit: int): Option<int>
  {
    if limit == 0 then None else Some(Ceil(total as real / limit as real))
  }

  /** The page size of a query: 50 when left out. */
  function LimitOf(q: HistoryQuery): int
  {
    if q.limit.Some? then q.limit.value else 50
  }

  /** The page number of a query: 1 when left out. */
  function PageOf(q: HistoryQuery): int
  {
    if q.page.Some? then q.page.value else 1
  }

  /** The number of matching records before the page: `(page - 1) * limit`. */
  function SkipOf(q: HistoryQuery): int
  {
    (PageOf(q) - 1) * LimitOf(q)
  }

  /** The records in the query, newest first. */
  function Matching(s: seq<TaxRecord>, owner: UserId, q: HistoryQuery, nameMatches: (string, string) -> bool): seq<TaxRecord>
  {
    SortByDateDesc(Select(s, owner, q, nameMatches))
  }

  /** How many records a page of `available` records holds: all for limit 0, `|limit|` at most otherwise. */
  function PageCount(limit: int, available: nat): (n: nat)
    ensures n <= available
  {
    if limit == 0 then available else if limit > 0 then Min(limit, available) else Min(-limit, available)
  }

  /**
   * The `/history` handler for `owner`: skip `(page - 1) * limit` of the matching records
   * sorted newest first and return at most `limit` of them (all when `limit` is 0, which the
   * store reads as no limit, `-limit` for a negative one); the total counts every match.
   */
  function History(s: seq<TaxRecord>, owner: UserId, q: HistoryQuery, nameMatches: (string, string) -> bool): Result<HistoryPage, QueryError>
  {
    var skip := SkipOf(q);
    if skip < 0 then Failure(NegativeSkip)
    else
      var matching := Matching(s, owner, q, nameMatches);
      var rest := if skip < |matching| then matching[skip..] else [];
      Success(HistoryPage(rest[..PageCount(LimitOf(q), |rest|)],
                          Pagination(PageOf(q), TotalPages(|matching|, LimitOf(q)), |matching|, LimitOf(q))))
  }

  /** The smaller of two integers. */
  function Min(a: int, b: int): int
  {
    if a <= b then a else b
  }

  // ---------------------------------------------------------------------------------
  // GET /stats

  /** The `overall` group of `/stats`. */
  datatype Overall = Overall(totalRecords: nat, totalIncome: real, totalTax: real, avgTaxRate: real, avgIncome: real)

  /** One group of `byRegime`. */
  datatype RegimeStat = RegimeStat(regime: string, count: nat, avgTaxRate: real)

  /** A `/stats` response; `overall` is `None` (the empty object) when the caller has no records. */
  datatype Stats = Stats(overall: Option<Overall>, byRegime: seq<RegimeStat>)

  /** The records of `owner`, in store order. */
  function OwnedBy(s: seq<TaxRecord>, owner: UserId): (t: seq<TaxRecord>)
    ensures forall i :: 0 <= i < |t| ==> t[i] in s && t[i].user == owner
    ensures forall r :: r in s && r.user == owner ==> r in t
  {
    if s == [] then []
    else
      var rest := OwnedBy(s[1..], owner);
      if s[0].user == owner then [s[0]] + rest else rest
  }

  /** The sum of the incomes. */
  function TotalIncome(s: seq<TaxRecord>): real
  {
    if s == [] then 0.0 else s[0].income + TotalIncome(s[1..])
  }

  /** The sum of the tax amounts. */
  function TotalTaxAmount(s: seq<TaxRecord>): real
  {
    if s == [] then 0.0 else s[0].taxAmount + TotalTaxAmount(s[1..])
  }

  /** The sum of the effective rates. */
  function TotalRate(s: seq<TaxRecord>): real
  {
    if s == [] then 0.0 else s[0].effectiveTaxRate + TotalRate(s[1..])
  }

  /** The records with regime `g`. */
  function WithRegime(s: seq<TaxRecord>, g: string): (t: seq<TaxRecord>)
    ensures forall i :: 0 <= i < |t| ==> t[i] in s && t[i].taxRegime == g
    ensures forall r :: r in s && r.taxRegime == g ==> r in t
  {
    if s == [] then []
    else
      var rest := WithRegime(s[1..], g);
      if s[0].taxRegime == g then [s[0]] + rest else rest
  }

  /** The regimes that occur in `s`, each once, in order of first occurrence. */
  function RegimesOf(s: seq<TaxRecord>): (gs: seq<string>)
    ensures forall i, j :: 0 <= i < j < |gs| ==> gs[i] != gs[j]
    ensures forall g :: g in gs <==> exists r :: r in s && r.taxRegime == g
  {
    if s == [] then []
    else
      var front := RegimesOf(s[..|s| - 1]);
      var last := s[|s| - 1];
      assert s == s[..|s| - 1] + [last];
      if last.taxRegime in front then front else front + [last.taxRegime]
  }

  /** The group of regime `g`. */
  function RegimeGroup(s: seq<TaxRecord>, g: string): RegimeStat
  {
    var members := WithRegime(s, g);
    RegimeStat(g, |members|, if members == [] then 0.0 else TotalRate(members) / |members| as real)
  }

  /**
   * The overall group of non-empty records: the count, the sums of incomes and tax amounts,
   * and the average rate and income, each of which times the count gives its sum.
   */
  function OverallOf(own: seq<TaxRecord>): (o: Overall)
    requires own != []
    ensures o.totalRecords == |own|
    ensures o.totalIncome == TotalIncome(own) && o.totalTax == TotalTaxAmount(own)
    ensures o.avgIncome * |own| as real == TotalIncome(own)
    ensures o.avgTaxRate * |own| as real == TotalRate(own)
  {
    var n := |own| as real;
    Overall(|own|, TotalIncome(own), TotalTaxAmount(own), TotalRate(own) / n, TotalIncome(own) / n)
  }

  /** The `/stats` handler for `owner`: totals and averages over the caller's records, and per regime. */
  function StatsOf(s: seq<TaxRecord>, owner: UserId): Stats
  {
    var own := OwnedBy(s, owner);
    var overall := if own == [] then None else Some(OverallOf(own));
    var regimes := RegimesOf(own);
    Stats(overall, seq(|regimes|, i requires 0 <= i < |regimes| => RegimeGroup(own, regimes[i])))
  }

  // ---------------------------------------------------------------------------------
  // DELETE /:id

  /** No two records share an id. */
  predicate DistinctIds(s: seq<TaxRecord>)
  {
    forall i, j :: 0 <= i < j < |s| ==> s[i].id != s[j].id
  }

  /** The position of the first record with this id and this owner, if any. */
  function FindOwned(s: seq<TaxRecord>, id: RecordId, owner: UserId): (k: Option<nat>)
    ensures k.Some? ==> k.value < |s| && s[k.value].id == id && s[k.value].user == owner
    ensures k.None? ==> forall i :: 0 <= i < |s| ==> !(s[i].id == id && s[i].user == owner)
  {
    if s == [] then None
    else if s[0].id == id && s[0].user == owner then Some(0)
    else
      var k := FindOwned(s[1..], id, owner);
      if k.Some? then Some(k.value + 1) else None
  }

  /** `findOneAndDelete({ _id: id, user: owner })`: the store without the found record, or unchanged. */
  function DeleteOwned(s: seq<TaxRecord>, id: RecordId, owner: UserId): seq<TaxRecord>
  {
    match FindOwned(s, id, owner)
    case None => s
    case Some(k) => s[..k] + s[k + 1..]
  }
}
