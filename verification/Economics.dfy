/** Affiliate code terms and the two-stage percentage arithmetic applied to a referred booking. */
module Economics {
  import opened Wrappers
  import opened Errors

  const MAX_SAFE_INTEGER := 9_007_199_254_740_991
  const BASIS := 10_000

  type Amount = x: int | 1 <= x <= MAX_SAFE_INTEGER witness 1
  type BasisPoints = x: int | 1 <= x <= BASIS witness 1
  type Price = x: int | 0 <= x <= MAX_SAFE_INTEGER

  datatype DiscountType = NoDiscount | PercentDiscount | FixedDiscount
  datatype CommissionType = PercentCommission | FixedCommission

  /** An optional request field: validation skips an explicit null exactly as it skips an absent field. */
  datatype Field<+T> = Undefined | Null | Given(value: T) {
    predicate Defined() { !Undefined? }
  }

  datatype Terms = Terms(
    discountType: DiscountType,
    discountBasisPoints: Field<BasisPoints>,
    discountAmount: Field<Amount>,
    discountCurrency: Field<string>,
    commissionType: CommissionType,
    commissionBasisPoints: Field<BasisPoints>,
    commissionAmount: Field<Amount>,
    commissionCurrency: Field<string>,
    startsAt: Option<int>,
    expiresAt: Option<int>)

  datatype Economics = Economics(gross: int, discount: int, final: int, commission: int, currency: string)

  predicate DiscountFieldsValid(t: Terms) {
    match t.discountType
    case NoDiscount => !t.discountBasisPoints.Defined() && !t.discountAmount.Defined() && !t.discountCurrency.Defined()
    case PercentDiscount => t.discountBasisPoints.Defined() && !t.discountAmount.Defined() && !t.discountCurrency.Defined()
    case FixedDiscount => !t.discountBasisPoints.Defined() && t.discountAmount.Defined() && t.discountCurrency.Defined()
  }

  predicate CommissionFieldsValid(t: Terms) {
    match t.commissionType
    case PercentCommission =>
      t.commissionBasisPoints.Defined() && !t.commissionAmount.Defined() && !t.commissionCurrency.Defined()
    case FixedCommission =>
      !t.commissionBasisPoints.Defined() && t.commissionAmount.Defined() && t.commissionCurrency.Defined()
  }

  /** Validates the field combination; a currency that is not a non-empty text is dropped from the stored terms. */
  function NormalizeTerms(dto: Terms): (r: Result<Terms, Error>) {
    if !DiscountFieldsValid(dto) || !CommissionFieldsValid(dto) ||
       (dto.startsAt.Some? && dto.expiresAt.Some? && dto.startsAt.value >= dto.expiresAt.value)
    then Failure(AFFILIATE_TERMS_INVALID)
    else Success(dto.(discountCurrency := Truthy(dto.discountCurrency),
                      commissionCurrency := Truthy(dto.commissionCurrency)))
  }

  function Truthy(text: Field<string>): (r: Field<string>) {
    if text.Given? && text.value != "" then text else Undefined
  }

  /** BigInt division: truncates toward zero, unlike `/`. */
  function TruncatedDivide(a: int, b: int): (r: int)
    requires b > 0
  {
    if a >= 0 then a / b else -((-a) / b)
  }

  function PercentageOf(amount: int, basisPoints: int): (r: int) {
    TruncatedDivide(amount * basisPoints, BASIS)
  }

  /** The fields that the calculation reads for the code's two types are present numbers. */
  predicate Supplied(t: Terms) {
    && (t.discountType.PercentDiscount? ==> t.discountBasisPoints.Given?)
    && (t.discountType.FixedDiscount? ==> t.discountAmount.Given?)
    && (t.commissionType.PercentCommission? ==> t.commissionBasisPoints.Given?)
    && (t.commissionType.FixedCommission? ==> t.commissionAmount.Given?)
  }

  function Calculate(code: Terms, price: Price, currency: string): (r: Result<Economics, Error>)
    requires Supplied(code)
  {
    if (code.discountType.FixedDiscount? && code.discountCurrency != Given(currency)) ||
       (code.commissionType.FixedCommission? && code.commissionCurrency != Given(currency))
    then Failure(REFERRAL_CODE_CURRENCY_MISMATCH)
    else
      var discount: int :=
        match code.discountType
        case NoDiscount => 0
        case PercentDiscount => PercentageOf(price, code.discountBasisPoints.value)
        case FixedDiscount => code.discountAmount.value;
      var final: int := price - discount;
      var commission: int :=
        match code.commissionType
        case PercentCommission => PercentageOf(final, code.commissionBasisPoints.value)
        case FixedCommission => code.commissionAmount.value;
      if discount > price || commission <= 0 || commission > final
      then Failure(REFERRAL_CODE_ECONOMICS_INVALID)
      else Success(Economics(price, discount, final, commission, currency))
  }

  // ----- what acceptance guarantees -----

  /**
   Terms are accepted exactly if each field is sent by the type that needs it and by no other, and they start before
   they expire. Everything is stored as sent, except that a currency is stored only if it is a text that is not empty.
   */
  lemma TermsAreAcceptedExactly(dto: Terms)
    ensures var r := NormalizeTerms(dto);
            if && (!dto.discountBasisPoints.Undefined? <==> dto.discountType.PercentDiscount?)
               && (!dto.discountAmount.Undefined? <==> dto.discountType.FixedDiscount?)
               && (!dto.discountCurrency.Undefined? <==> dto.discountType.FixedDiscount?)
               && (!dto.commissionBasisPoints.Undefined? <==> dto.commissionType.PercentCommission?)
               && (!dto.commissionAmount.Undefined? <==> dto.commissionType.FixedCommission?)
               && (!dto.commissionCurrency.Undefined? <==> dto.commissionType.FixedCommission?)
               && (dto.startsAt.Some? && dto.expiresAt.Some? ==> dto.startsAt.value < dto.expiresAt.value)
            then
              && r.Success?
              && r.value == dto.(discountCurrency := r.value.discountCurrency, commissionCurrency := r.value.commissionCurrency)
              && StoredText(dto.discountCurrency, r.value.discountCurrency)
              && StoredText(dto.commissionCurrency, r.value.commissionCurrency)
            else r == Failure(AFFILIATE_TERMS_INVALID)
  {
  }

  predicate StoredText(given: Field<string>, stored: Field<string>) {
    if given.Given? && |given.value| > 0 then stored == given else stored.Undefined?
  }

  /** An explicit null in a field the type needs is the only way for accepted terms to lack what the calculation reads. */
  lemma NormalizedTermsAreSupplied(dto: Terms)
    requires NormalizeTerms(dto).Success?
    ensures Supplied(NormalizeTerms(dto).value) <==>
            && !dto.discountBasisPoints.Null? && !dto.discountAmount.Null?
            && !dto.commissionBasisPoints.Null? && !dto.commissionAmount.Null?
  {
    assert dto.discountBasisPoints.Defined() <==> dto.discountType.PercentDiscount?;
    assert dto.commissionBasisPoints.Defined() <==> dto.commissionType.PercentCommission?;
  }

  /** The accepted but unusable request: percentage types whose percentages are null. */
  lemma NullPercentageIsAccepted()
    ensures var dto := Terms(PercentDiscount, Null, Undefined, Undefined, PercentCommission, Null, Undefined, Undefined, None, None);
            NormalizeTerms(dto).Success? && !Supplied(NormalizeTerms(dto).value)
  {
  }

  lemma AcceptedEconomicsAreBounded(code: Terms, price: Price, currency: string)
    requires Supplied(code) && Calculate(code, price, currency).Success?
    ensures var e := Calculate(code, price, currency).value;
            && e.gross == price == e.discount + e.final
            && 0 <= e.discount <= e.gross
            && 1 <= e.commission <= e.final <= e.gross <= MAX_SAFE_INTEGER
  {
    if code.discountType.PercentDiscount? {
      PercentageWithin(price, code.discountBasisPoints.value);
    }
  }

  lemma PercentageWithin(amount: int, basisPoints: BasisPoints)
    requires amount >= 0
    ensures PercentageOf(amount, basisPoints) * BASIS <= amount * basisPoints < (PercentageOf(amount, basisPoints) + 1) * BASIS
    ensures 0 <= PercentageOf(amount, basisPoints) <= amount
  {
    Product(amount, basisPoints);
    var n := amount * basisPoints;
    assert PercentageOf(amount, basisPoints) == n / BASIS;
    assert n == (n / BASIS) * BASIS + n % BASIS;
  }

  lemma Product(amount: int, basisPoints: BasisPoints)
    requires amount >= 0
    ensures 0 <= amount * basisPoints <= amount * BASIS
  {
    MulMonotone(amount, basisPoints, BASIS);
    MulMonotone(amount, 0, basisPoints);
  }

  lemma MulMonotone(k: int, a: int, b: int)
    requires k >= 0 && a <= b
    ensures k * a <= k * b
  {
  }

  /** Percent on percent: the commission is less than one minor unit away from gross * (10000 - d) * c / 10^8. */
  lemma CommissionIsWithinOneUnit(code: Terms, price: Price, currency: string)
    requires Supplied(code) && Calculate(code, price, currency).Success?
    requires code.discountType.PercentDiscount? && code.commissionType.PercentCommission?
    ensures var commission := Calculate(code, price, currency).value.commission;
            var exact := price * (BASIS - code.discountBasisPoints.value) * code.commissionBasisPoints.value;
            (commission - 1) * BASIS * BASIS < exact < (commission + 1) * BASIS * BASIS
  {
    var d, c := code.discountBasisPoints.value, code.commissionBasisPoints.value;
    var e := Calculate(code, price, currency).value;
    PercentageWithin(price, d);
    AcceptedEconomicsAreBounded(code, price, currency);
    PercentageWithin(e.final, c);
    Distribute(price, d);
    var net := price * (BASIS - d);
    assert e.final * BASIS - BASIS < net <= e.final * BASIS;
    ScaleStage(net, e.final, c);
    assert (e.final * BASIS - BASIS) * c <= net * c <= e.final * BASIS * c;
    StageOrder(e.final, c);
    assert e.final * BASIS * c == (e.final * c) * BASIS;
    assert (e.final * BASIS - BASIS) * c == (e.final * c) * BASIS - BASIS * c;
    if net * c == (e.final * BASIS - BASIS) * c {
      StrictScale(net, e.final * BASIS - BASIS, c);
    }
  }

  lemma Distribute(price: int, d: int)
    ensures price * (BASIS - d) == price * BASIS - price * d
  {
  }

  lemma ScaleStage(net: int, final: int, c: int)
    requires c >= 1 && final * BASIS - BASIS < net <= final * BASIS
    ensures (final * BASIS - BASIS) * c <= net * c <= final * BASIS * c
  {
    MulMonotone(c, final * BASIS - BASIS, net);
    MulMonotone(c, net, final * BASIS);
  }

  lemma StageOrder(final: int, c: int)
    ensures final * BASIS * c == (final * c) * BASIS
    ensures (final * BASIS - BASIS) * c == (final * c) * BASIS - BASIS * c
  {
    assert (final * BASIS - BASIS) * c == final * BASIS * c - BASIS * c;
  }

  lemma StrictScale(a: int, b: int, c: int)
    requires c >= 1 && a > b
    ensures a * c > b * c
  {
    MulMonotone(c, b + 1, a);
  }

  lemma PercentageIsMonotone(low: int, high: int, basisPoints: BasisPoints)
    requires 0 <= low <= high
    ensures PercentageOf(low, basisPoints) <= PercentageOf(high, basisPoints)
    ensures PercentageOf(high, basisPoints) - PercentageOf(low, basisPoints) <= high - low
  {
    PercentageWithin(low, basisPoints);
    PercentageWithin(high, basisPoints);
    MulMonotone(basisPoints, low, high);
    Product(high - low, basisPoints);
    assert (high - low) * basisPoints == high * basisPoints - low * basisPoints;
  }

  /** With one code, a dearer service never earns a smaller percentage commission, whatever the discount type. */
  lemma CommissionIsMonotoneInPrice(code: Terms, low: Price, high: Price, currency: string)
    requires Supplied(code) && low <= high
    requires Calculate(code, low, currency).Success? && Calculate(code, high, currency).Success?
    ensures Calculate(code, low, currency).value.commission <= Calculate(code, high, currency).value.commission
    ensures Calculate(code, low, currency).value.final <= Calculate(code, high, currency).value.final
  {
    AcceptedEconomicsAreBounded(code, low, currency);
    AcceptedEconomicsAreBounded(code, high, currency);
    if code.discountType.PercentDiscount? {
      PercentageIsMonotone(low, high, code.discountBasisPoints.value);
    }
    if code.commissionType.PercentCommission? {
      PercentageIsMonotone(Calculate(code, low, currency).value.final, Calculate(code, high, currency).value.final,
                           code.commissionBasisPoints.value);
    }
  }

  predicate CurrenciesMatch(code: Terms, currency: string) {
    && (code.discountType.FixedDiscount? ==> code.discountCurrency == Given(currency))
    && (code.commissionType.FixedCommission? ==> code.commissionCurrency == Given(currency))
  }

  /** What is left of the price, in one step: a percentage discount never rounds in the customer's favour. */
  function Net(code: Terms, price: Price): (r: int)
    requires Supplied(code)
  {
    match code.discountType
    case NoDiscount => price
    case PercentDiscount => (price * (BASIS - code.discountBasisPoints.value) + BASIS - 1) / BASIS
    case FixedDiscount => price - code.discountAmount.value
  }

  /** What is left of the price yields at least one minor unit of commission, and a fixed commission does not exceed it. */
  predicate YieldsCommission(code: Terms, price: Price)
    requires Supplied(code)
  {
    if code.commissionType.PercentCommission? then 10_000 <= Net(code, price) * code.commissionBasisPoints.value
    else code.commissionAmount.value <= Net(code, price)
  }

  /**
   A code is accepted for a price exactly if its currencies match and what is left of the price yields at least one unit
   of commission. The final amount is then what is left, and the commission is the agreed amount, or the largest whole
   number of units within the agreed percentage of what is left.
   */
  lemma AcceptanceIsExact(code: Terms, price: Price, currency: string)
    requires Supplied(code)
    ensures var r := Calculate(code, price, currency);
            if !CurrenciesMatch(code, currency) then r == Failure(REFERRAL_CODE_CURRENCY_MISMATCH)
            else if !YieldsCommission(code, price) then r == Failure(REFERRAL_CODE_ECONOMICS_INVALID)
            else
              && r.Success? && r.value.gross == price && r.value.currency == currency
              && r.value.final == Net(code, price) == price - r.value.discount
              && if code.commissionType.FixedCommission? then r.value.commission == code.commissionAmount.value
                 else r.value.commission * 10_000 <= Net(code, price) * code.commissionBasisPoints.value
                      < (r.value.commission + 1) * 10_000
  {
    var net := Net(code, price);
    if code.discountType.PercentDiscount? {
      NetOfPercentage(price, code.discountBasisPoints.value);
      PercentageWithin(price, code.discountBasisPoints.value);
    }
    if code.commissionType.PercentCommission? {
      if net >= 0 {
        PercentageWithin(net, code.commissionBasisPoints.value);
      } else {
        MulMonotone(code.commissionBasisPoints.value, net, 0);
      }
    }
  }

  /** Rounding the discount down rounds the net price up. */
  lemma NetOfPercentage(price: Price, d: BasisPoints)
    ensures price - PercentageOf(price, d) == (price * (BASIS - d) + BASIS - 1) / BASIS
  {
    Product(price, d);
    var q, r := price * d / BASIS, price * d % BASIS;
    Distribute(price, d);
    assert price * (BASIS - d) + BASIS - 1 == (price - q) * BASIS + (BASIS - 1 - r);
  }
}
