/**
 * `fetchAnnualRainfall` in `src/features/index.ts`, after the archive service
 * has answered: the year's daily precipitation is totalled, added day by day
 * into twelve monthly buckets (updated in place), and every figure is rounded.
 * Any failure, including a day whose date does not parse, yields an error
 * result instead.
 */
module RainfallArchive {
  import opened Wrappers
  import opened JsMath

  /** What `new Date(s).getMonth()` gives for a date that parses: 0 for January to 11 for December. */
  type MonthIndex = m: int | 0 <= m < 12

  const MonthNames: seq<string> := ["Jan", "Feb", "Mar", "Apr", "May", "Jun", "Jul", "Aug", "Sep", "Oct", "Nov", "Dec"]

  const DefaultError: string := "Failed to fetch rainfall data"

  /** The engine's message when `monthlyData[NaN].rainfall` is read for a date that does not parse. */
  const UnreadableBucketError: string := "Cannot read properties of undefined (reading 'rainfall')"

  /**
   * The archive service's answer: the `daily.precipitation_sum` and `daily.time`
   * arrays (`None` when absent, each day's value `None` when null, each date
   * already turned into its month, `None` when it does not parse), or the
   * message of the exception the request raised.
   */
  datatype FetchOutcome =
    | Fetched(precipitation: Option<seq<Option<real>>>, months: Option<seq<Option<MonthIndex>>>)
    | FetchFailed(message: Option<string>)

  datatype MonthlyRainfall = MonthlyRainfall(month: string, rainfall: int)

  /** `AnnualRainfallData`; every field is optional, as in the source type. */
  datatype AnnualRainfallData = AnnualRainfallData(
    location: Option<string>,
    annualRainfall: Option<int>,
    monthlyData: Option<seq<MonthlyRainfall>>,
    loading: Option<bool>,
    error: Option<string>)

  /** `val || 0`. */
  function OrZero(v: Option<real>): real
  {
    if v.Some? then v.value else 0.0
  }

  /** The running total of the first `n` days. */
  function DailyTotal(daily: seq<Option<real>>, n: nat): real
    requires n <= |daily|
  {
    if n == 0 then 0.0 else DailyTotal(daily, n - 1) + OrZero(daily[n - 1])
  }

  /** What the first `n` days added to month `m`'s bucket. */
  function BucketTotal(daily: seq<Option<real>>, months: seq<Option<MonthIndex>>, n: nat, m: MonthIndex): real
    requires n <= |daily| && n <= |months|
  {
    if n == 0 then 0.0
    else BucketTotal(daily, months, n - 1, m) + (if months[n - 1] == Some(m) then OrZero(daily[n - 1]) else 0.0)
  }

  /** Every one of the first `n` days has a month. */
  predicate DatesReadable(daily: seq<Option<real>>, months: seq<Option<MonthIndex>>)
  {
    |daily| <= |months| && forall i :: 0 <= i < |daily| ==> months[i].Some?
  }

  /** The sum of the first `k` monthly buckets after `n` days. */
  function BucketsUpTo(daily: seq<Option<real>>, months: seq<Option<MonthIndex>>, n: nat, k: nat): real
    requires n <= |daily| && n <= |months| && k <= 12
  {
    if k == 0 then 0.0 else BucketsUpTo(daily, months, n, k - 1) + BucketTotal(daily, months, n, k - 1)
  }

  /** One more day adds its value to the bucket sum once, if its month is among the first `k`. */
  lemma {:induction false} BucketsUpToStep(daily: seq<Option<real>>, months: seq<Option<MonthIndex>>, n: nat, k: nat)
    requires n < |daily| && n < |months| && k <= 12 && months[n].Some?
    ensures BucketsUpTo(daily, months, n + 1, k)
         == BucketsUpTo(daily, months, n, k) + (if months[n].value < k then OrZero(daily[n]) else 0.0)
  {
    if k > 0 {
      BucketsUpToStep(daily, months, n, k - 1);
    }
  }

  lemma {:induction false} NoDaysEmptyBuckets(daily: seq<Option<real>>, months: seq<Option<MonthIndex>>, k: nat)
    requires k <= 12
    ensures BucketsUpTo(daily, months, 0, k) == 0.0
  {
    if k > 0 {
      NoDaysEmptyBuckets(daily, months, k - 1);
    }
  }

  /** Each day lands in exactly one bucket, so the twelve unrounded buckets add up to the annual total. */
  lemma {:induction false} BucketsSumToTotal(daily: seq<Option<real>>, months: seq<Option<MonthIndex>>, n: nat)
    requires n <= |daily| && DatesReadable(daily, months)
    ensures BucketsUpTo(daily, months, n, 12) == DailyTotal(daily, n)
  {
    if n == 0 {
      NoDaysEmptyBuckets(daily, months, 12);
    } else {
      BucketsSumToTotal(daily, months, n - 1);
      BucketsUpToStep(daily, months, n - 1, 12);
    }
  }

  /** The failure result: the exception's message, or the default when it has none. */
  function Failure(message: Option<string>): (r: AnnualRainfallData)
    ensures r.error.Some? && r.error.value != []
    ensures r.loading == Some(false) && r.annualRainfall.None? && r.monthlyData.None? && r.location.None?
  {
    var text := if message.Some? && message.value != [] then message.value else DefaultError;
    AnnualRainfallData(None, None, None, Some(false), Some(text))
  }

  /** The specification of `fetchAnnualRainfall` from the service's answer on. */
  function Aggregate(outcome: FetchOutcome, locationName: string): (r: AnnualRainfallData)
    ensures r.error.None? <==>
      (outcome.Fetched? && DatesReadable(outcome.precipitation.GetOr([]), outcome.months.GetOr([])))
    ensures r.loading == Some(false)
    ensures r.error.None? ==>
      var daily := outcome.precipitation.GetOr([]);
      var months := outcome.months.GetOr([]);
      r.location == Some(locationName)
      && r.annualRainfall == Some(Round(DailyTotal(daily, |daily|)))
      && r.monthlyData.Some? && |r.monthlyData.value| == 12
      && forall m: MonthIndex :: r.monthlyData.value[m]
           == MonthlyRainfall(MonthNames[m], Round(BucketTotal(daily, months, |daily|, m)))
  {
    match outcome
    case FetchFailed(message) => Failure(message)
    case Fetched(precipitation, dates) =>
      var daily := precipitation.GetOr([]);
      var months := dates.GetOr([]);
      if !DatesReadable(daily, months) then Failure(Some(UnreadableBucketError))
      else
        AnnualRainfallData(
          location := Some(locationName),
          annualRainfall := Some(Round(DailyTotal(daily, |daily|))),
          monthlyData := Some(seq(12, m requires 0 <= m < 12 =>
            MonthlyRainfall(MonthNames[m], Round(BucketTotal(daily, months, |daily|, m))))),
          loading := Some(false),
          error := None)
  }

  /**
   * The body of `fetchAnnualRainfall` after the request: the total by a
   * reduce, the buckets filled in place day by day and then rounded in place.
   */
  method FetchAnnualRainfall(outcome: FetchOutcome, locationName: string) returns (r: AnnualRainfallData)
    ensures r == Aggregate(outcome, locationName)
  {
    if outcome.FetchFailed? {
      return Failure(outcome.message);
    }
    var dailyPrecipitation := outcome.precipitation.GetOr([]);
    var dailyMonths := outcome.months.GetOr([]);

    var annualTotal := DailyTotal(dailyPrecipitation, |dailyPrecipitation|);

    var monthlyData := new real[12](_ => 0.0);
    var idx := 0;
    while idx < |dailyPrecipitation|
      invariant 0 <= idx <= |dailyPrecipitation|
      invariant idx <= |dailyMonths| && forall i :: 0 <= i < idx ==> dailyMonths[i].Some?
      invariant forall m: MonthIndex :: monthlyData[m] == BucketTotal(dailyPrecipitation, dailyMonths, idx, m)
    {
      if idx >= |dailyMonths| || dailyMonths[idx].None? {
        return Failure(Some(UnreadableBucketError));
      }
      var monthIndex := dailyMonths[idx].value;
      monthlyData[monthIndex] := monthlyData[monthIndex] + OrZero(dailyPrecipitation[idx]);
      idx := idx + 1;
    }

    var m := 0;
    while m < 12
      invariant 0 <= m <= 12
      invariant forall j: MonthIndex :: j < m ==>
        monthlyData[j] == Round(BucketTotal(dailyPrecipitation, dailyMonths, idx, j)) as real
      invariant forall j: MonthIndex :: j >= m ==>
        monthlyData[j] == BucketTotal(dailyPrecipitation, dailyMonths, idx, j)
    {
      monthlyData[m] := Round(monthlyData[m]) as real;
      m := m + 1;
    }

    var months := seq(12, j requires 0 <= j < 12 reads monthlyData => MonthlyRainfall(MonthNames[j], monthlyData[j].Floor));
    assert DatesReadable(dailyPrecipitation, dailyMonths);
    ghost var spec := Aggregate(outcome, locationName).monthlyData.value;
    assert forall j :: 0 <= j < 12 ==> months[j] == spec[j];
    assert months == spec;
    return AnnualRainfallData(Some(locationName), Some(Round(annualTotal)), Some(months), Some(false), None);
  }
}
