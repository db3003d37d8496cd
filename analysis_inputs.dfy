/**
 * The input side of the analysis page: `safeNumber`, `safeArraySum`, the
 * `safeInputs` record the five stages read, and the `hasValidInputs` flag.
 */
module InputNormalizer {
  import opened Wrappers
  import opened JsMath
  import opened Text

  /**
   * A raw form or state value, classified the way `safeNumber` looks at it:
   * `null`, `undefined`, the empty string, anything whose `Number(...)` is NaN,
   * and anything whose `Number(...)` is the number `n` (so the text "12" is
   * `Numeric(12.0)` and `0`, which `NumberInput` emits for an empty box, is
   * `Numeric(0.0)`).
   */
  datatype RawValue = Null | Undefined | EmptyText | NotANumber | Numeric(n: real)

  /** `safeNumber(value, defaultValue)`. */
  function SafeNumber(value: RawValue, default: real): (r: real)
    ensures !value.Numeric? ==> r == default
    ensures value.Numeric? && value.n >= 0.0 ==> r == value.n
    ensures value.Numeric? && value.n < 0.0 ==> r == 0.0
    ensures r >= 0.0 || r == default
  {
    match value
    case Numeric(n) => Max(0.0, n)
    case _ => default
  }

  /** `safeArraySum(arr)`; `None` stands for a value that is not an array. */
  function SafeArraySum(arr: Option<seq<RawValue>>): (r: real)
    ensures r >= 0.0
    ensures arr.None? || arr.value == [] ==> r == 0.0
    decreases if arr.Some? then |arr.value| else 0
  {
    match arr
    case None => 0.0
    case Some(xs) =>
      if xs == [] then 0.0
      else SafeArraySum(Some(xs[..|xs| - 1])) + SafeNumber(xs[|xs| - 1], 0.0)
  }

  /** The page's `Inputs` state before normalisation. */
  datatype RawInputs = RawInputs(
    name: string,
    location: string,
    roofArea: RawValue,
    dwellers: RawValue,
    openSpace: RawValue,
    annualRainfall: RawValue,
    roofType: string,
    waterPrice: RawValue,
    discountRate: RawValue,
    inflationRate: RawValue)

  /** The `safeInputs` record every stage reads. */
  datatype SafeInputs = SafeInputs(
    roofArea: real,
    dwellers: real,
    annualRainfall: real,
    waterPrice: real,
    discountRate: real,
    inflationRate: real,
    roofType: string,
    openSpace: real)

  /** `safeInputs`: every number is made non-negative, with the page's own defaults. */
  function Normalize(raw: RawInputs): (s: SafeInputs)
    ensures s.roofArea >= 0.0 && s.dwellers >= 0.0 && s.annualRainfall >= 0.0 && s.openSpace >= 0.0
    ensures s.waterPrice >= 0.0 && s.discountRate >= 0.0 && s.inflationRate >= 0.0
    ensures !raw.waterPrice.Numeric? ==> s.waterPrice == 50.0
    ensures !raw.discountRate.Numeric? ==> s.discountRate == 5.0
    ensures !raw.inflationRate.Numeric? ==> s.inflationRate == 3.0
    ensures !raw.annualRainfall.Numeric? ==> s.annualRainfall == 0.0
    ensures s.roofType == if raw.roofType == "" then "concrete" else raw.roofType
  {
    SafeInputs(
      roofArea := SafeNumber(raw.roofArea, 0.0),
      dwellers := SafeNumber(raw.dwellers, 0.0),
      annualRainfall := SafeNumber(raw.annualRainfall, 0.0),
      waterPrice := SafeNumber(raw.waterPrice, 50.0),
      discountRate := SafeNumber(raw.discountRate, 5.0),
      inflationRate := SafeNumber(raw.inflationRate, 3.0),
      roofType := if raw.roofType == "" then "concrete" else raw.roofType,
      openSpace := SafeNumber(raw.openSpace, 0.0))
  }

  /** An explicit zero (an empty `NumberInput`) stays zero instead of taking the default. */
  lemma ExplicitZeroIsKept(raw: RawInputs)
    requires raw.waterPrice == Numeric(0.0) && raw.discountRate == Numeric(0.0)
    requires raw.inflationRate == Numeric(0.0)
    ensures Normalize(raw).waterPrice == 0.0 && Normalize(raw).discountRate == 0.0
    ensures Normalize(raw).inflationRate == 0.0
  {
  }

  /** The `hasValidInputs` flag. */
  function HasValidInputs(raw: RawInputs): (ok: bool)
    ensures ok <==> (raw.roofArea.Numeric? && raw.roofArea.n > 0.0
                     && raw.dwellers.Numeric? && raw.dwellers.n > 0.0
                     && raw.annualRainfall.Numeric? && raw.annualRainfall.n > 0.0
                     && exists i :: 0 <= i < |raw.location| && !IsSpace(raw.location[i]))
  {
    TrimEmptyIffBlank(raw.location);
    SafeNumber(raw.roofArea, 0.0) > 0.0
    && SafeNumber(raw.dwellers, 0.0) > 0.0
    && SafeNumber(raw.annualRainfall, 0.0) > 0.0
    && |Trim(raw.location)| > 0
  }
}
