/**
 * The `TaxRecord` schema: the fields a stored tax record has, the defaults the model fills
 * in, the `trim` setter on `userName`, and the validators (`required`, `maxlength`, `min`,
 * `enum`) that run when a record is saved.
 */
module TaxRecordModel {
  import opened Wrappers
  import opened TaxEngine

  /** The id of an authenticated user. */
  type UserId = nat

  /** The id of a stored record. */
  type RecordId = nat

  /** A document as handed to the model before defaults and validation: any field may be absent. */
  datatype Draft = Draft(
    user: Option<UserId>,
    userName: Option<string>,
    income: Option<real>,
    taxRegime: Option<string>,
    deductions: Option<real>,
    taxableIncome: Option<real>,
    taxAmount: Option<real>,
    effectiveTaxRate: Option<real>,
    calculationDetails: Option<Details>)

  /** A saved record; `date` is the creation time, in milliseconds. */
  datatype TaxRecord = TaxRecord(
    id: RecordId,
    user: UserId,
    userName: string,
    income: real,
    taxRegime: string,
    deductions: real,
    taxableIncome: real,
    taxAmount: real,
    effectiveTaxRate: real,
    calculationDetails: Details,
    date: int)

  /** Which validator rejected a field. */
  datatype Violation = Required | MaxLength | Min | NotInEnum

  /** One entry of a validation error: the field, the validator and its message. */
  datatype FieldError = FieldError(path: string, kind: Violation, message: string)

  /** `maxlength` of `userName`. */
  const MaxUserNameLength: nat := 100

  /** The values `taxRegime` may take. */
  const RegimeValues: seq<string> := ["old", "new"]

  /** The default of `taxRegime`. */
  const DefaultRegime: string := "new"

  /** The details stored when none are given: the empty object. */
  const EmptyDetails: Details := Details([], None, None)

  /** The characters `String.prototype.trim` removes: white space and line terminators. */
  predicate IsTrimmable(c: char)
  {
    var n := c as int;
    n == 0x09 || n == 0x0A || n == 0x0B || n == 0x0C || n == 0x0D || n == 0x20 || n == 0xA0
    || n == 0x1680 || (0x2000 <= n <= 0x200A) || n == 0x2028 || n == 0x2029 || n == 0x202F
    || n == 0x205F || n == 0x3000 || n == 0xFEFF
  }

  /** `s` without its leading trimmable characters. */
  function TrimStart(s: string): (r: string)
    ensures |r| <= |s| && r == s[|s| - |r|..]
    ensures r == [] || !IsTrimmable(r[0])
    ensures forall i :: 0 <= i < |s| - |r| ==> IsTrimmable(s[i])
  {
    if |s| > 0 && IsTrimmable(s[0]) then TrimStart(s[1..]) else s
  }

  /** `s` without its trailing trimmable characters. */
  function TrimEnd(s: string): (r: string)
    ensures |r| <= |s| && r == s[..|r|]
    ensures r == [] || !IsTrimmable(r[|r| - 1])
    ensures forall i :: |r| <= i < |s| ==> IsTrimmable(s[i])
  {
    if |s| > 0 && IsTrimmable(s[|s| - 1]) then TrimEnd(s[..|s| - 1]) else s
  }

  /** `String.prototype.trim`. */
  function Trim(s: string): string
  {
    TrimEnd(TrimStart(s))
  }

  /** The length JavaScript reports for a string: its UTF-16 code units. */
  function Utf16Length(s: string): (n: nat)
    ensures |s| <= n <= 2 * |s|
  {
    if s == [] then 0 else (if s[0] as int > 0xFFFF then 2 else 1) + Utf16Length(s[1..])
  }

  /**
   * What constructing a model document does to a draft: `userName` is trimmed, and the
   * absent `taxRegime`, `deductions` and `calculationDetails` get their defaults.
   */
  function ApplySchema(d: Draft): (c: Draft)
    ensures c.user == d.user && c.income == d.income && c.taxableIncome == d.taxableIncome
    ensures c.taxAmount == d.taxAmount && c.effectiveTaxRate == d.effectiveTaxRate
    ensures c.taxRegime.Some? && c.deductions.Some? && c.calculationDetails.Some?
  {
    d.(userName := if d.userName.Some? then Some(Trim(d.userName.value)) else None,
       taxRegime := if d.taxRegime.Some? then d.taxRegime else Some(DefaultRegime),
       deductions := if d.deductions.Some? then d.deductions else Some(0.0),
       calculationDetails := if d.calculationDetails.Some? then d.calculationDetails else Some(EmptyDetails))
  }

  /** The errors of a required number field with a minimum of 0. */
  function NumberErrors(path: string, v: Option<real>, requiredMessage: string, minMessage: string): (errs: seq<FieldError>)
    ensures errs == [] <==> v.Some? && v.value >= 0.0
  {
    if v.None? then [FieldError(path, Required, requiredMessage)]
    else if v.value < 0.0 then [FieldError(path, Min, minMessage)]
    else []
  }

  /** The errors of the owner field. */
  function UserErrors(c: Draft): seq<FieldError>
  {
    if c.user.None? then [FieldError("user", Required, "User ID is required")] else []
  }

  /** The errors of the name field: required (non-empty), at most 100 UTF-16 units. */
  function UserNameErrors(c: Draft): seq<FieldError>
  {
    if c.userName.None? || c.userName.value == [] then
      [FieldError("userName", Required, "User name is required")]
    else if Utf16Length(c.userName.value) > MaxUserNameLength then
      [FieldError("userName", MaxLength, "User name cannot exceed 100 characters")]
    else []
  }

  /** The message of a regime outside the enumeration. */
  function EnumMessage(v: string): string
  {
    "`" + v + "` is not a valid enum value for path `taxRegime`."
  }

  /** The errors of the regime field: required (the empty string counts as missing), one of `'old'` and `'new'`. */
  function TaxRegimeErrors(c: Draft): seq<FieldError>
  {
    if c.taxRegime.None? || c.taxRegime.value == [] then
      [FieldError("taxRegime", Required, "Tax regime must be specified")]
    else if c.taxRegime.value !in RegimeValues then
      [FieldError("taxRegime", NotInEnum, EnumMessage(c.taxRegime.value))]
    else []
  }

  /** The errors of the deductions field: at least 0 when present. */
  function DeductionErrors(c: Draft): seq<FieldError>
  {
    if c.deductions.Some? && c.deductions.value < 0.0 then
      [FieldError("deductions", Min, "Deductions cannot be negative")]
    else []
  }

  /** The validation errors of a document after `ApplySchema`, one per failing field, in schema order. */
  function FieldErrors(c: Draft): seq<FieldError>
  {
    UserErrors(c)
    + UserNameErrors(c)
    + NumberErrors("income", c.income, "Income amount is required", "Income cannot be negative")
    + TaxRegimeErrors(c)
    + DeductionErrors(c)
    + NumberErrors("taxableIncome", c.taxableIncome, "Path `taxableIncome` is required.",
                   "Taxable income cannot be negative")
    + NumberErrors("taxAmount", c.taxAmount, "Path `taxAmount` is required.", "Tax amount cannot be negative")
    + NumberErrors("effectiveTaxRate", c.effectiveTaxRate, "Path `effectiveTaxRate` is required.",
                   "Effective tax rate cannot be negative")
  }

  /** The constraints every stored record satisfies. */
  predicate ValidRecord(r: TaxRecord)
  {
    && r.userName != []
    && Trim(r.userName) == r.userName
    && Utf16Length(r.userName) <= MaxUserNameLength
    && r.income >= 0.0
    && r.taxRegime in RegimeValues
    && r.deductions >= 0.0
    && r.taxableIncome >= 0.0
    && r.taxAmount >= 0.0
    && r.effectiveTaxRate >= 0.0
  }

  /** Trimming twice trims no more than trimming once. */
  lemma TrimIdempotent(s: string)
    ensures Trim(Trim(s)) == Trim(s)
  {
    var r := Trim(s);
    var a := TrimStart(s);
    if r != [] {
      assert r[0] == a[0];
    }
    assert TrimStart(r) == r;
  }

  /**
   * `Validate(d, id, now)`: save-time validation of the document built from `d`. It succeeds
   * with the stored record, created at `now` with id `id`, or fails with the field errors.
   */
  function Validate(d: Draft, id: RecordId, now: int): (res: Result<TaxRecord, seq<FieldError>>)
    ensures res.Failure? ==> res.error != []
  {
    var c := ApplySchema(d);
    var errs := FieldErrors(c);
    if errs == [] then
      assert c.user.Some? && c.userName.Some? && c.income.Some? && c.taxableIncome.Some?;
      assert c.taxAmount.Some? && c.effectiveTaxRate.Some?;
      Success(TaxRecord(id, c.user.value, c.userName.value, c.income.value, c.taxRegime.value,
                        c.deductions.value, c.taxableIncome.value, c.taxAmount.value,
                        c.effectiveTaxRate.value, c.calculationDetails.value, now))
    else
      Failure(errs)
  }

  /** The draft a stored record was made from. */
  function DraftOf(r: TaxRecord): Draft
  {
    Draft(Some(r.user), Some(r.userName), Some(r.income), Some(r.taxRegime), Some(r.deductions),
          Some(r.taxableIncome), Some(r.taxAmount), Some(r.effectiveTaxRate), Some(r.calculationDetails))
  }

  /** What `Trim` keeps starts and ends with a character that is not trimmable. */
  lemma TrimKeepsNoEdge(s: string)
    ensures Trim(s) == [] || (!IsTrimmable(Trim(s)[0]) && !IsTrimmable(Trim(s)[|Trim(s)| - 1]))
  {
    var a := TrimStart(s);
    if Trim(s) != [] {
      assert Trim(s)[0] == a[0];
    }
  }

  /** What `Trim` keeps is the slice of the input that starts after the leading trimmable run. */
  lemma TrimIsSlice(s: string)
    ensures var k := |s| - |TrimStart(s)|;
            k + |Trim(s)| <= |s| && Trim(s) == s[k..k + |Trim(s)|]
  {
  }

  /** Everything `Trim` drops, before and after the slice it keeps, is trimmable. */
  lemma TrimDropsOnlyTrimmable(s: string)
    ensures var r, k := Trim(s), |s| - |TrimStart(s)|;
            && (forall i :: 0 <= i < k ==> IsTrimmable(s[i]))
            && (forall i :: k + |r| <= i < |s| ==> IsTrimmable(s[i]))
  {
    var a := TrimStart(s);
    var r := TrimEnd(a);
    var k := |s| - |a|;
    forall i | k + |r| <= i < |s| ensures IsTrimmable(s[i]) {
      assert s[i] == a[i - k];
      assert |r| <= i - k < |a|;
    }
  }

  /**
   * Validation accepts a draft exactly when it has an owner, a name that is non-empty after
   * trimming and at most 100 UTF-16 units long, a non-negative income, a regime (after its default)
   * of `'old'` or `'new'`, non-negative deductions (after their default of 0), and non-negative
   * taxable income, tax amount and effective rate.
   */
  lemma ValidateAcceptsExactly(d: Draft, id: RecordId, now: int)
    ensures Validate(d, id, now).Success? <==>
      && d.user.Some?
      && d.userName.Some? && Trim(d.userName.value) != []
      && Utf16Length(Trim(d.userName.value)) <= MaxUserNameLength
      && d.income.Some? && d.income.value >= 0.0
      && (d.taxRegime.None? || d.taxRegime.value in RegimeValues)
      && (d.deductions.None? || d.deductions.value >= 0.0)
      && d.taxableIncome.Some? && d.taxableIncome.value >= 0.0
      && d.taxAmount.Some? && d.taxAmount.value >= 0.0
      && d.effectiveTaxRate.Some? && d.effectiveTaxRate.value >= 0.0
  {
    NoFieldErrors(ApplySchema(d));
  }

  /** A document has no field errors exactly when every field meets its constraints. */
  lemma NoFieldErrors(c: Draft)
    ensures FieldErrors(c) == [] <==>
      && c.user.Some?
      && c.userName.Some? && c.userName.value != [] && Utf16Length(c.userName.value) <= MaxUserNameLength
      && c.income.Some? && c.income.value >= 0.0
      && c.taxRegime.Some? && c.taxRegime.value in RegimeValues
      && (c.deductions.None? || c.deductions.value >= 0.0)
      && c.taxableIncome.Some? && c.taxableIncome.value >= 0.0
      && c.taxAmount.Some? && c.taxAmount.value >= 0.0
      && c.effectiveTaxRate.Some? && c.effectiveTaxRate.value >= 0.0
  {
    var parts := [UserErrors(c), UserNameErrors(c),
                  NumberErrors("income", c.income, "Income amount is required", "Income cannot be negative"),
                  TaxRegimeErrors(c), DeductionErrors(c),
                  NumberErrors("taxableIncome", c.taxableIncome, "Path `taxableIncome` is required.",
                               "Taxable income cannot be negative"),
                  NumberErrors("taxAmount", c.taxAmount, "Path `taxAmount` is required.", "Tax amount cannot be negative"),
                  NumberErrors("effectiveTaxRate", c.effectiveTaxRate, "Path `effectiveTaxRate` is required.",
                               "Effective tax rate cannot be negative")];
    assert |FieldErrors(c)| == |parts[0]| + |parts[1]| + |parts[2]| + |parts[3]| + |parts[4]| + |parts[5]| + |parts[6]| + |parts[7]|;
    assert [] !in RegimeValues;
  }

  /**
   * A record that validation produces satisfies every schema constraint and carries the
   * draft's fields: the trimmed name, the defaulted regime, deductions and details, the
   * given id and the creation time.
   */
  lemma ValidateProducesValidRecord(d: Draft, id: RecordId, now: int)
    requires Validate(d, id, now).Success?
    ensures var r := Validate(d, id, now).value;
            && ValidRecord(r)
            && r.id == id && r.date == now
            && Some(r.user) == d.user
            && r.userName == Trim(d.userName.value)
            && Some(r.income) == d.income
            && r.taxRegime == (if d.taxRegime.Some? then d.taxRegime.value else DefaultRegime)
            && r.deductions == (if d.deductions.Some? then d.deductions.value else 0.0)
            && Some(r.taxableIncome) == d.taxableIncome
            && Some(r.taxAmount) == d.taxAmount
            && Some(r.effectiveTaxRate) == d.effectiveTaxRate
            && r.calculationDetails == (if d.calculationDetails.Some? then d.calculationDetails.value else EmptyDetails)
  {
    ValidateAcceptsExactly(d, id, now);
    TrimIdempotent(d.userName.value);
  }

  /**
   * A regime outside `'old'` and `'new'` fails validation: the empty string with the
   * required error for `taxRegime`, any other value with the enum error.
   */
  lemma ValidateRejectsUnknownRegime(d: Draft, id: RecordId, now: int)
    requires d.taxRegime.Some? && d.taxRegime.value !in RegimeValues
    ensures Validate(d, id, now).Failure?
    ensures d.taxRegime.value == [] ==>
              FieldError("taxRegime", Required, "Tax regime must be specified") in Validate(d, id, now).error
    ensures d.taxRegime.value != [] ==>
              FieldError("taxRegime", NotInEnum, EnumMessage(d.taxRegime.value)) in Validate(d, id, now).error
  {
    var c := ApplySchema(d);
    NoFieldErrors(c);
    if d.taxRegime.value == [] {
      assert FieldError("taxRegime", Required, "Tax regime must be specified") in TaxRegimeErrors(c);
    } else {
      assert FieldError("taxRegime", NotInEnum, EnumMessage(d.taxRegime.value)) in TaxRegimeErrors(c);
    }
  }

  /** A valid record passes validation again unchanged: the schema is a closure of its own output. */
  lemma ValidRecordRoundTrip(r: TaxRecord)
    requires ValidRecord(r)
    ensures Validate(DraftOf(r), r.id, r.date) == Success(r)
  {
    ValidateAcceptsExactly(DraftOf(r), r.id, r.date);
  }
}
