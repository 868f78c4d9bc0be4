/**
 * The extraction schemas of the legal-document extractor: the document-type
 * enumeration, the party record, the three per-type payloads and the error
 * payload, together with the field validators of `JudgmentData` and the value
 * constraints on its money and rate fields.
 *
 * Python `Decimal` values are modelled as `real`s; parsing a decimal from text
 * is library behaviour and is a parameter `parse` of the validators.
 */
module Schema {
  import opened Wrappers
  import opened Text
  import opened Regex

  datatype DocumentTypeEnum = Judgment | Dismissal | Affidavit | Other

  /** The classifier's answer: a category and a confidence score. */
  datatype DocumentType = DocumentType(classification: DocumentTypeEnum, confidence: real)

  datatype Party = Party(name: string, role: Option<string>, address: Option<string>, attorney: Option<string>)

  /** A calendar date; its validity is checked by the date library, not by this model. */
  datatype Date = Date(year: int, month: int, day: int)

  datatype JudgmentData = JudgmentData(
    caseNumber: string,
    filedDate: Date,
    county: string,
    court: Option<string>,
    plaintiffCreditor: Party,
    defendantsDebtors: seq<Party>,
    judgmentAmount: real,
    interestRate: Option<real>,
    judge: Option<string>,
    satisfactionStatus: Option<bool>,
    attorneyFees: Option<real>)

  datatype DismissalTypeEnum = WithPrejudice | WithoutPrejudice | Voluntary | Involuntary

  datatype DismissalData = DismissalData(
    caseNumber: string,
    filedDate: Date,
    county: string,
    court: Option<string>,
    plaintiff: Party,
    defendants: seq<Party>,
    dismissalType: DismissalTypeEnum,
    judge: Option<string>,
    reason: Option<string>)

  datatype AffidavitData = AffidavitData(
    affiant: Party,
    dateOfAffidavit: Date,
    contentSummary: string,
    notaryPublic: Option<string>,
    notaryCounty: Option<string>,
    notaryState: Option<string>,
    commissionExpiration: Option<Date>)

  /** The `extracted_data` slot: one of the three payloads or an error message. */
  datatype Extracted =
    | AsJudgment(judgment: JudgmentData)
    | AsDismissal(dismissal: DismissalData)
    | AsAffidavit(affidavit: AffidavitData)
    | ExtractionError(errorMessage: string)

  /** The document type a payload variant belongs to; `None` for an error. */
  function VariantType(d: Extracted): Option<DocumentTypeEnum> {
    match d
    case AsJudgment(_) => Some(Judgment)
    case AsDismissal(_) => Some(Dismissal)
    case AsAffidavit(_) => Some(Affidavit)
    case ExtractionError(_) => None
  }

  datatype LegalDocument = LegalDocument(
    documentId: string,
    fileUri: string,
    documentType: DocumentTypeEnum,
    extractedData: Extracted,
    processingErrors: seq<string>)

  // ---------------------------------------------------------------------------
  // Field validators of JudgmentData
  // ---------------------------------------------------------------------------

  const CaseNumberFormatError := "Invalid case number format. Must be ABC-123-2023."
  const InterestRateTooHigh := "Interest rate is too high."

  /** `validate_case_number_format`: accept exactly `[A-Z]{3}-\d{3}-\d{4}`, unchanged. */
  function ValidateCaseNumberFormat(v: string): (r: Result<string, string>)
    ensures r.Success? <==> IsCaseNumber(v)
    ensures r.Success? ==> r.value == v
    ensures r.Failure? ==> r.error == CaseNumberFormatError
  {
    CaseNumberPatternSpec(v);
    if FullMatch(CaseNumberPattern, v) then Success(v) else Failure(CaseNumberFormatError)
  }

  /** A raw money or rate value as the model may supply it: `str | Decimal | None`. */
  datatype DecimalInput = DecimalText(text: string) | DecimalValue(amount: real) | DecimalNone

  /** `remove_commas`: drop every `,` from a string; pass anything else through. */
  function RemoveCommas(v: DecimalInput): (r: DecimalInput)
    ensures v.DecimalText? ==> (
      && r.DecimalText?
      && ',' !in r.text
      && IsSubsequence(r.text, v.text)
      && |r.text| == |v.text| - Count(v.text, ','))
    ensures !v.DecimalText? ==> r == v
  {
    match v
    case DecimalText(t) => RemoveCharSpec(t, ','); DecimalText(RemoveChar(t, ','))
    case _ => v
  }

  /** Stripping commas a second time changes nothing. */
  lemma RemoveCommasIdempotent(v: DecimalInput)
    ensures RemoveCommas(RemoveCommas(v)) == RemoveCommas(v)
  {
    if v.DecimalText? {
      RemoveCharAbsent(RemoveCommas(v).text, ',');
    }
  }

  /** Raw satisfaction status: `str | bool | None`. */
  datatype SatisfactionInput = SatisfactionText(text: string) | SatisfactionFlag(flag: bool) | SatisfactionNone

  /** Text the normaliser reads as "satisfied". */
  predicate MentionsSettled(lowered: string) {
    Contains(lowered, "satisf") || Contains(lowered, "paid in full") || Contains(lowered, "release")
  }

  /** `standardize_satisfaction` as written: the keyword test comes before the `unsatisfied` test. */
  function StandardizeSatisfaction(v: SatisfactionInput): (r: Option<bool>)
    ensures v.SatisfactionFlag? ==> r == Some(v.flag)
    ensures v.SatisfactionNone? ==> r == None
    ensures v.SatisfactionText? ==> (r == Some(true) <==> MentionsSettled(Lower(v.text)))
  {
    match v
    case SatisfactionText(t) =>
      var lowered := Lower(t);
      if MentionsSettled(lowered) then Some(true)
      else if Contains(lowered, "unsatisfied") then Some(false)
      else None
    case SatisfactionFlag(b) => Some(b)
    case SatisfactionNone => None
  }

  /** Every text containing `unsatisfied` contains `satisf`. */
  lemma UnsatisfiedMentionsSatisf(t: string)
    requires Contains(t, "unsatisfied")
    ensures Contains(t, "satisf")
  {
    assert "unsatisfied"[2..8] == "satisf";
    ContainsAt("unsatisfied", "satisf", 2);
    ContainsTransitive(t, "unsatisfied", "satisf");
  }

  /**
   * For text, `standardize_satisfaction` as written never answers `False`:
   * it answers `True` on a keyword and `None` otherwise.
   */
  lemma SatisfactionTextOutcome(t: string)
    ensures StandardizeSatisfaction(SatisfactionText(t)) != Some(false)
    ensures StandardizeSatisfaction(SatisfactionText(t)) == None <==> !MentionsSettled(Lower(t))
  {
    if Contains(Lower(t), "unsatisfied") {
      UnsatisfiedMentionsSatisf(Lower(t));
    }
  }

  /** The input that shows the dead branch: `unsatisfied` is read as satisfied. */
  lemma SatisfactionUnsatisfiedCounterexample()
    ensures StandardizeSatisfaction(SatisfactionText("unsatisfied")) == Some(true)
    ensures StandardizeSatisfactionIntended(SatisfactionText("unsatisfied")) == Some(false)
  {
    LowerOfLowercase("unsatisfied");
    assert "unsatisfied"[..11] == "unsatisfied";
    assert Contains("unsatisfied", "unsatisfied");
    UnsatisfiedMentionsSatisf("unsatisfied");
  }

  /**
   * `standardize_satisfaction` as its explicit-negative branch intends it:
   * text containing `unsatisfied` gives `False`, and otherwise the answer is
   * the same as the code as written.
   */
  function StandardizeSatisfactionIntended(v: SatisfactionInput): (r: Option<bool>)
    ensures v.SatisfactionText? ==> (r == Some(false) <==> Contains(Lower(v.text), "unsatisfied"))
    ensures v.SatisfactionText? && !Contains(Lower(v.text), "unsatisfied") ==> r == StandardizeSatisfaction(v)
    ensures !v.SatisfactionText? ==> r == StandardizeSatisfaction(v)
  {
    match v
    case SatisfactionText(t) =>
      var lowered := Lower(t);
      if Contains(lowered, "unsatisfied") then Some(false)
      else if MentionsSettled(lowered) then Some(true)
      else None
    case _ => StandardizeSatisfaction(v)
  }

  /**
   * `check_interest_rate`: a present rate above 1 is rejected once
   * `judgment_amount` has validated; anything else passes unchanged.
   */
  function CheckInterestRate(v: Option<real>, amountValidated: bool): (r: Result<Option<real>, string>)
    ensures r.Failure? <==> v.Some? && amountValidated && v.value > 1.0
    ensures r.Success? ==> r.value == v
    ensures r.Failure? ==> r.error == InterestRateTooHigh
  {
    if v.Some? && amountValidated && v.value > 1.0 then Failure(InterestRateTooHigh) else Success(v)
  }

  // ---------------------------------------------------------------------------
  // Validation of a whole JudgmentData record
  // ---------------------------------------------------------------------------

  /** The fields of JudgmentData that carry a validator or a value constraint. */
  datatype JudgmentField = CaseNumber | JudgmentAmount | InterestRate | AttorneyFees

  datatype ErrorKind =
    | ValueError(message: string)   // raised by one of the field validators
    | NotADecimal                   // missing where required, or text that does not parse
    | BelowMinimum(ge: real)        // violates `ge=`
    | AboveMaximum(le: real)        // violates `le=`

  datatype FieldError = FieldError(field: JudgmentField, kind: ErrorKind)

  /** JudgmentData as it arrives from the model, before validation. */
  datatype RawJudgment = RawJudgment(
    caseNumber: string,
    filedDate: Date,
    county: string,
    court: Option<string>,
    plaintiffCreditor: Party,
    defendantsDebtors: seq<Party>,
    judgmentAmount: DecimalInput,
    interestRate: DecimalInput,
    judge: Option<string>,
    satisfactionStatus: SatisfactionInput,
    attorneyFees: DecimalInput)

  /** The value constraints every validated JudgmentData satisfies. */
  predicate ValidJudgment(j: JudgmentData) {
    IsCaseNumber(j.caseNumber)
    && j.judgmentAmount >= 0.0
    && (j.interestRate.Some? ==> 0.0 <= j.interestRate.value <= 1.0)
    && (j.attorneyFees.Some? ==> j.attorneyFees.value >= 0.0)
  }

  /** d satisfies `ge=0` and, when given, `le=upper`. */
  predicate InRange(d: real, upper: Option<real>) {
    0.0 <= d && (upper.Some? ==> d <= upper.value)
  }

  /** Bounds check of a decimal `d` against `ge=0` and an optional `le=`. */
  function CheckBounds(d: real, upper: Option<real>): (r: Result<Option<real>, ErrorKind>)
    ensures r.Success? <==> InRange(d, upper)
    ensures r.Success? ==> r.value == Some(d)
  {
    if d < 0.0 then Failure(BelowMinimum(0.0))
    else if upper.Some? && d > upper.value then Failure(AboveMaximum(upper.value))
    else Success(Some(d))
  }

  /**
   * The type check of a `condecimal(ge=0[, le=upper])` field (optional or
   * required), run after any before-validator and before any after-validator.
   */
  function CheckDecimal(v: DecimalInput, optional: bool, upper: Option<real>, parse: string -> Option<real>)
    : (r: Result<Option<real>, ErrorKind>)
    ensures r.Success? && r.value.Some? ==> 0.0 <= r.value.value && (upper.Some? ==> r.value.value <= upper.value)
    ensures r.Success? && r.value.None? ==> v.DecimalNone? && optional
    ensures v.DecimalNone? ==> r == (if optional then Success(None) else Failure(NotADecimal))
    ensures v.DecimalValue? ==> (r.Success? <==> InRange(v.amount, upper))
    ensures v.DecimalText? ==> (r.Success? <==> parse(v.text).Some? && InRange(parse(v.text).value, upper))
    ensures v.DecimalValue? && r.Success? ==> r.value == Some(v.amount)
    ensures v.DecimalText? && r.Success? ==> r.value == parse(v.text)
  {
    match v
    case DecimalNone => if optional then Success(None) else Failure(NotADecimal)
    case DecimalValue(d) => CheckBounds(d, upper)
    case DecimalText(t) =>
      match parse(t)
      case None => Failure(NotADecimal)
      case Some(d) => CheckBounds(d, upper)
  }

  function ErrorsOf<T>(field: JudgmentField, r: Result<T, ErrorKind>): seq<FieldError> {
    if r.Failure? then [FieldError(field, r.error)] else []
  }

  /**
   * Interest rate: `Optional[condecimal(ge=0, le=1)]`, then `check_interest_rate`.
   * Because the `le=1` bound is enforced first, the after-validator only ever
   * sees rates in [0, 1] and never rejects: the field's outcome is that of its
   * bounds check alone.
   */
  function ValidateInterestRate(v: DecimalInput, amountValidated: bool, parse: string -> Option<real>)
    : (r: Result<Option<real>, ErrorKind>)
    ensures r.Success? <==> CheckDecimal(v, true, Some(1.0), parse).Success?
    ensures r.Success? ==> r.value == CheckDecimal(v, true, Some(1.0), parse).value
    ensures r.Failure? ==> r.error == CheckDecimal(v, true, Some(1.0), parse).error
    ensures r.Failure? ==> r.error != ValueError(InterestRateTooHigh)
  {
    match CheckDecimal(v, true, Some(1.0), parse)
    case Failure(e) => Failure(e)
    case Success(rate) =>
      match CheckInterestRate(rate, amountValidated)
      case Failure(message) => Failure(ValueError(message))
      case Success(checked) => Success(checked)
  }

  /**
   * Validation of a JudgmentData record: every field is checked in declaration
   * order, all failures are collected, and `check_interest_rate` learns
   * whether `judgment_amount` validated.
   */
  function ValidateJudgment(raw: RawJudgment, parse: string -> Option<real>): (r: Result<JudgmentData, seq<FieldError>>)
    ensures r.Success? ==> ValidJudgment(r.value)
    ensures r.Success? ==> (
      && r.value.caseNumber == raw.caseNumber
      && r.value.filedDate == raw.filedDate
      && r.value.county == raw.county
      && r.value.court == raw.court
      && r.value.plaintiffCreditor == raw.plaintiffCreditor
      && r.value.defendantsDebtors == raw.defendantsDebtors
      && r.value.judge == raw.judge
      && r.value.satisfactionStatus == StandardizeSatisfaction(raw.satisfactionStatus))
    ensures r.Success? && raw.judgmentAmount.DecimalValue? ==> r.value.judgmentAmount == raw.judgmentAmount.amount
    ensures r.Success? && raw.judgmentAmount.DecimalText?
      ==> Some(r.value.judgmentAmount) == parse(RemoveChar(raw.judgmentAmount.text, ','))
    ensures r.Success? && raw.interestRate.DecimalValue? ==> r.value.interestRate == Some(raw.interestRate.amount)
    ensures r.Success? && raw.interestRate.DecimalText? ==> r.value.interestRate == parse(raw.interestRate.text)
    ensures r.Success? && raw.interestRate.DecimalNone? ==> r.value.interestRate == None
    ensures r.Success? && raw.attorneyFees.DecimalValue? ==> r.value.attorneyFees == Some(raw.attorneyFees.amount)
    ensures r.Success? && raw.attorneyFees.DecimalText?
      ==> r.value.attorneyFees == parse(RemoveChar(raw.attorneyFees.text, ','))
    ensures r.Success? && raw.attorneyFees.DecimalNone? ==> r.value.attorneyFees == None
    ensures r.Success? <==> (
      && IsCaseNumber(raw.caseNumber)
      && CheckDecimal(RemoveCommas(raw.judgmentAmount), false, None, parse).Success?
      && CheckDecimal(raw.interestRate, true, Some(1.0), parse).Success?
      && CheckDecimal(RemoveCommas(raw.attorneyFees), true, None, parse).Success?)
    ensures !IsCaseNumber(raw.caseNumber) ==> r.Failure? && FieldError(CaseNumber, ValueError(CaseNumberFormatError)) in r.error
    ensures raw.judgmentAmount.DecimalNone? ==> r.Failure? && FieldError(JudgmentAmount, NotADecimal) in r.error
    ensures raw.judgmentAmount.DecimalValue? && raw.judgmentAmount.amount < 0.0 ==> r.Failure?
    ensures raw.interestRate.DecimalValue? && raw.interestRate.amount > 1.0 ==> r.Failure?
    ensures raw.attorneyFees.DecimalValue? && raw.attorneyFees.amount < 0.0 ==> r.Failure?
    ensures r.Failure? ==> |r.error| > 0
  {
    var caseNumber := ValidateCaseNumberFormat(raw.caseNumber);
    var amount := CheckDecimal(RemoveCommas(raw.judgmentAmount), false, None, parse);
    var rate := ValidateInterestRate(raw.interestRate, amount.Success?, parse);
    var fees := CheckDecimal(RemoveCommas(raw.attorneyFees), true, None, parse);
    var errors :=
      (if caseNumber.Failure? then [FieldError(CaseNumber, ValueError(caseNumber.error))] else [])
      + ErrorsOf(JudgmentAmount, amount) + ErrorsOf(InterestRate, rate) + ErrorsOf(AttorneyFees, fees);
    if errors != [] then Failure(errors)
    else
      Success(JudgmentData(
        raw.caseNumber, raw.filedDate, raw.county, raw.court, raw.plaintiffCreditor, raw.defendantsDebtors,
        amount.value.value, rate.value, raw.judge,
        StandardizeSatisfaction(raw.satisfactionStatus), fees.value))
  }

  /** A validated record whose status text says `unsatisfied` is recorded as satisfied. */
  lemma ValidatedUnsatisfiedReadsSatisfied(raw: RawJudgment, parse: string -> Option<real>)
    requires raw.satisfactionStatus == SatisfactionText("unsatisfied")
    ensures ValidateJudgment(raw, parse).Success? ==> ValidateJudgment(raw, parse).value.satisfactionStatus == Some(true)
  {
    SatisfactionUnsatisfiedCounterexample();
  }

  /**
   * The `le=1` constraint on `interest_rate` runs before `check_interest_rate`,
   * so the "Interest rate is too high." error can never be produced.
   */
  lemma InterestRateCheckNeverFires(raw: RawJudgment, parse: string -> Option<real>)
    ensures ValidateJudgment(raw, parse).Failure?
      ==> FieldError(InterestRate, ValueError(InterestRateTooHigh)) !in ValidateJudgment(raw, parse).error
  {
  }
}
