/**
 Performance records: the rates, the summary over records, and active periods that never overlap
 (services/performance.py). Money is in cents; a rate is a number of millionths.
 */
module Performance {
  import opened Common
  import opened Dates
  import opened Decimals

  /** The validated request body; `refs` are the four optional links, checked elsewhere. */
  datatype Payload = Payload(start: Date, end: Date, impressions: int, clicks: int, conversions: int,
                             spend: int, revenue: int, refs: seq<Option<nat>>)

  /** What the request schema guarantees. */
  predicate ValidPayload(p: Payload) {
    && Le(p.start, p.end)
    && 0 <= p.conversions <= p.clicks <= p.impressions
    && p.spend >= 0 && p.revenue >= 0
  }

  datatype Metrics = Metrics(ctr: Option<int>, conversionRate: Option<int>, roi: Option<int>)

  datatype Record = Record(productId: nat, payload: Payload, metrics: Metrics, active: bool, version: int)

  type Records = map<nat, Record>

  /** `OutOfRange` is the database's error for a value that does not fit its column. */
  datatype PerformanceError =
    | RecordNotFound | ProductNotFound | ReferenceInvalid | PeriodOverlap | RecordVoided | VersionConflict
    | OutOfRange

  // ----- rates ------------------------------------------------------------------

  function Rate(numerator: int, denominator: int): Option<int>
    requires numerator >= 0 && denominator >= 0
  {
    if denominator == 0 then None else Some(HalfUp(numerator, denominator, MILLION))
  }

  function CalculateMetrics(impressions: int, clicks: int, conversions: int, spend: int, revenue: int): Metrics
    requires impressions >= 0 && clicks >= 0 && conversions >= 0 && spend >= 0 && revenue >= 0
  {
    Metrics(Rate(clicks, impressions), Rate(conversions, clicks), Rate(revenue, spend))
  }

  /** `x` millionths are nearest to `n / d`; a half is rounded up. */
  predicate NearestMillionth(x: int, n: int, d: int) {
    2 * x * d - d <= 2 * n * MILLION < 2 * x * d + d
  }

  /** No rate of nothing; any other is the nearest millionth, and there is only one such. */
  lemma RateMeans(n: int, d: int)
    requires n >= 0 && d >= 0
    ensures Rate(n, d).None? <==> d == 0
    ensures d > 0 ==> forall x: int :: Rate(n, d) == Some(x) <==> NearestMillionth(x, n, d)
  {
    if d > 0 {
      forall x: int ensures HalfUp(n, d, MILLION) == x <==> NearestMillionth(x, n, d) {
        HalfUpAtLeast(n, d, MILLION, x);
        HalfUpAtLeast(n, d, MILLION, x + 1);
        assert (2 * x - 1) * d == 2 * x * d - d && (2 * (x + 1) - 1) * d == 2 * x * d + d;
      }
    }
  }

  /** The service divides at 28 digits and then quantizes; up to 10^21 that is one exact rounding. */
  lemma RateIsOneRounding(n: int, d: int, m: int, scale: int)
    requires IsQuotient28(n, d, m, scale) && n < 1_000_000_000_000_000_000_000
    ensures scale > 0 && Rate(n, d) == Some(HalfUp(m, scale, MILLION))
  {
    assert IsPowerOfTen(MILLION) by {
      assert IsPowerOfTen(1) && IsPowerOfTen(10) && IsPowerOfTen(100) && IsPowerOfTen(1000);
      assert IsPowerOfTen(10_000) && IsPowerOfTen(100_000);
    }
    PowerPositive(scale);
    QuantizedQuotientIsExact(n, d, m, scale, MILLION);
  }

  /**
   The bound is needed, also for proportions: twenty times beyond it, a rate just below a half step is
   rounded up to that step by the division and from there to the next millionth.
   */
  lemma DoubleRoundingBeyond()
    ensures var n, d := 19_999_990_000_000_001_999_998, 20_000_000_000_000_001_999_999;
            var m, scale := 9_999_995_000_000_000_000_000_000_000, 10_000_000_000_000_000_000_000_000_000;
            && IsQuotient28(n, d, m, scale)
            && Rate(n, d) == Some(999_999) && HalfUp(m, scale, MILLION) == 1_000_000
  {
    assert IsPowerOfTen(1) && IsPowerOfTen(10) && IsPowerOfTen(100) && IsPowerOfTen(1000) && IsPowerOfTen(10_000);
    PowersMultiply(10_000, 10_000);
    PowersMultiply(100_000_000, 10_000);
    PowersMultiply(1_000_000_000_000, 1_000_000_000_000);
    PowersMultiply(1_000_000_000_000_000_000_000_000, 10_000);
  }

  // ----- the summary ------------------------------------------------------------

  /** One fraction of a summary: numerators and denominators of the selected records. */
  datatype Part = Part(n: int, d: int)

  function SumN(parts: seq<Part>): int {
    if parts == [] then 0 else parts[0].n + SumN(parts[1..])
  }

  function SumD(parts: seq<Part>): int {
    if parts == [] then 0 else parts[0].d + SumD(parts[1..])
  }

  predicate Natural(parts: seq<Part>) {
    forall i | 0 <= i < |parts| :: parts[i].n >= 0 && parts[i].d >= 0
  }

  /** Nothing counted above a zero. */
  predicate Rooted(parts: seq<Part>) {
    forall i | 0 <= i < |parts| && parts[i].d == 0 :: parts[i].n == 0
  }

  /** A rate of counted events among counted events. */
  predicate Proper(parts: seq<Part>) {
    forall i | 0 <= i < |parts| :: 0 <= parts[i].n <= parts[i].d
  }

  lemma {:induction false} SumBounds(parts: seq<Part>)
    requires Proper(parts)
    ensures 0 <= SumN(parts) <= SumD(parts)
  {
    if parts != [] {
      assert parts[0].n <= parts[0].d;
      assert forall i | 0 <= i < |parts[1..]| :: parts[1..][i] == parts[i + 1];
      SumBounds(parts[1..]);
    }
  }

  lemma {:induction false} SumsAtLeast(parts: seq<Part>, low: int)
    requires Natural(parts)
    requires forall i | 0 <= i < |parts| && parts[i].d > 0 :: HalfUp(parts[i].n, parts[i].d, MILLION) >= low
    ensures 2 * SumN(parts) * MILLION >= (2 * low - 1) * SumD(parts)
  {
    if parts != [] {
      var rest := parts[1..];
      assert forall i | 0 <= i < |rest| :: rest[i] == parts[i + 1];
      SumsAtLeast(rest, low);
      assert parts[0].n >= 0 && parts[0].d >= 0;
      if parts[0].d > 0 {
        HalfUpAtLeast(parts[0].n, parts[0].d, MILLION, low);
      }
      Distribute(2 * low - 1, parts[0].d, SumD(rest));
    }
  }

  lemma {:induction false} SumsAtMost(parts: seq<Part>, high: int)
    requires Natural(parts) && Rooted(parts)
    requires forall i | 0 <= i < |parts| && parts[i].d > 0 :: HalfUp(parts[i].n, parts[i].d, MILLION) <= high
    ensures SumD(parts) > 0 ==> 2 * SumN(parts) * MILLION < (2 * high + 1) * SumD(parts)
    ensures SumD(parts) == 0 ==> SumN(parts) == 0
  {
    if parts != [] {
      var rest := parts[1..];
      assert forall i | 0 <= i < |rest| :: rest[i] == parts[i + 1];
      SumsAtMost(rest, high);
      MoneySums(rest);
      assert parts[0].n >= 0 && parts[0].d >= 0 && (parts[0].d == 0 ==> parts[0].n == 0);
      if parts[0].d > 0 {
        HalfUpAtLeast(parts[0].n, parts[0].d, MILLION, high + 1);
        assert 2 * (high + 1) - 1 == 2 * high + 1;
      }
      Distribute(2 * high + 1, parts[0].d, SumD(rest));
    }
  }

  lemma Distribute(k: int, a: int, b: int)
    ensures k * (a + b) == k * a + k * b
  {
  }

  /**
   A summary rate is never below all rounded record rates, and not above all of them either, unless
   something was counted above a zero.
   */
  lemma SummaryRateBetween(parts: seq<Part>, low: int, high: int)
    requires Natural(parts) && SumD(parts) > 0
    requires forall i | 0 <= i < |parts| && parts[i].d > 0 :: low <= HalfUp(parts[i].n, parts[i].d, MILLION) <= high
    ensures SumN(parts) >= 0
    ensures var r := Rate(SumN(parts), SumD(parts));
            r.Some? && low <= r.value && (Rooted(parts) ==> r.value <= high)
  {
    MoneySums(parts);
    SumsAtLeast(parts, low);
    var n, d := SumN(parts), SumD(parts);
    HalfUpAtLeast(n, d, MILLION, low);
    if Rooted(parts) {
      SumsAtMost(parts, high);
      HalfUpAtLeast(n, d, MILLION, high + 1);
      assert 2 * (high + 1) - 1 == 2 * high + 1;
    }
  }

  /** The rate of a part of the whole is a proportion. */
  lemma ProportionAtMostOne(n: int, d: int)
    requires 0 <= n <= d && d > 0
    ensures Rate(n, d).Some? && 0 <= Rate(n, d).value <= MILLION
  {
    HalfUpAtLeast(n, d, MILLION, 0);
    HalfUpAtLeast(n, d, MILLION, MILLION + 1);
    Distribute(2 * MILLION, d, 0);
    assert 2 * n * MILLION <= 2 * MILLION * d < (2 * (MILLION + 1) - 1) * d;
  }

  function ClicksOfImpressions(rows: seq<Record>): seq<Part> {
    seq(|rows|, i requires 0 <= i < |rows| => Part(rows[i].payload.clicks, rows[i].payload.impressions))
  }

  function ConversionsOfClicks(rows: seq<Record>): seq<Part> {
    seq(|rows|, i requires 0 <= i < |rows| => Part(rows[i].payload.conversions, rows[i].payload.clicks))
  }

  function RevenueOfSpend(rows: seq<Record>): seq<Part> {
    seq(|rows|, i requires 0 <= i < |rows| => Part(rows[i].payload.revenue, rows[i].payload.spend))
  }

  /** The stored metrics are those of the stored numbers. */
  predicate ValidRecord(r: Record) {
    ValidPayload(r.payload) && r.metrics == MetricsOf(r.payload)
  }

  predicate ValidRows(rows: seq<Record>) {
    forall i | 0 <= i < |rows| :: ValidRecord(rows[i])
  }

  function MetricsOf(p: Payload): Metrics
    requires ValidPayload(p)
  {
    CalculateMetrics(p.impressions, p.clicks, p.conversions, p.spend, p.revenue)
  }

  const MAX_COUNT: int := 0x7FFF_FFFF_FFFF_FFFF // 64-bit columns
  const MAX_MONEY: int := 99_999_999_999_999 // 14 digits, in cents
  const MAX_ROI: int := 999_999_999_999 // 12 digits, in millionths

  /**
   The columns hold the record. The schema bounds no count and no amount, and the return on spend has
   six digits before its decimal point; the two proportions always fit.
   */
  predicate FitsColumns(p: Payload)
    requires ValidPayload(p)
  {
    && p.impressions <= MAX_COUNT
    && p.spend <= MAX_MONEY && p.revenue <= MAX_MONEY
    && (MetricsOf(p).roi.Some? ==> MetricsOf(p).roi.value <= MAX_ROI)
  }

  /**
   A record fits if and only if its counts are below 2^63, its amounts below a trillion, and its return,
   where there is one, rounds to less than a million.
   */
  lemma FitsMeans(p: Payload)
    requires ValidPayload(p)
    ensures FitsColumns(p) <==>
            && p.impressions < 0x8000_0000_0000_0000
            && p.spend < 100_000_000_000_000 && p.revenue < 100_000_000_000_000
            && (p.spend > 0 ==> 2 * p.revenue * 1_000_000 < 1_999_999_999_999 * p.spend)
  {
    if p.spend > 0 {
      HalfUpAtLeast(p.revenue, p.spend, MILLION, 1_000_000_000_000);
    }
  }

  lemma {:induction false} MoneySums(rows: seq<Part>)
    requires forall i | 0 <= i < |rows| :: rows[i].n >= 0 && rows[i].d >= 0
    ensures SumN(rows) >= 0 && SumD(rows) >= 0
  {
    if rows != [] {
      assert rows[0].n >= 0 && rows[0].d >= 0;
      assert forall i | 0 <= i < |rows[1..]| :: rows[1..][i] == rows[i + 1];
      MoneySums(rows[1..]);
    }
  }

  lemma MoneyIsNatural(rows: seq<Record>)
    requires ValidRows(rows)
    ensures Natural(RevenueOfSpend(rows))
  {
    var parts := RevenueOfSpend(rows);
    forall i | 0 <= i < |parts| ensures parts[i].n >= 0 && parts[i].d >= 0 {
      assert ValidRecord(rows[i]);
    }
  }

  lemma CountsAreProper(rows: seq<Record>)
    requires ValidRows(rows)
    ensures Proper(ClicksOfImpressions(rows)) && Proper(ConversionsOfClicks(rows))
  {
    forall i | 0 <= i < |rows|
      ensures 0 <= rows[i].payload.conversions <= rows[i].payload.clicks <= rows[i].payload.impressions
    {
      assert ValidRecord(rows[i]);
    }
  }

  lemma SumsAreNatural(rows: seq<Record>)
    requires ValidRows(rows)
    ensures 0 <= SumN(ClicksOfImpressions(rows)) <= SumD(ClicksOfImpressions(rows))
    ensures 0 <= SumN(ConversionsOfClicks(rows)) <= SumD(ConversionsOfClicks(rows))
    ensures 0 <= SumN(RevenueOfSpend(rows)) && 0 <= SumD(RevenueOfSpend(rows))
  {
    CountsAreProper(rows);
    MoneyIsNatural(rows);
    SumBounds(ClicksOfImpressions(rows));
    SumBounds(ConversionsOfClicks(rows));
    MoneySums(RevenueOfSpend(rows));
  }

  /** The metrics of the sums, not the sums of the metrics. */
  ghost predicate IsSummary(rows: seq<Record>, m: Metrics)
    requires ValidRows(rows)
  {
    SumsAreNatural(rows);
    && m.ctr == Rate(SumN(ClicksOfImpressions(rows)), SumD(ClicksOfImpressions(rows)))
    && m.conversionRate == Rate(SumN(ConversionsOfClicks(rows)), SumD(ConversionsOfClicks(rows)))
    && m.roi == Rate(SumN(RevenueOfSpend(rows)), SumD(RevenueOfSpend(rows)))
  }

  /** `performance_summary` on the rows the query selected. */
  method Summarize(rows: seq<Record>) returns (m: Metrics)
    requires ValidRows(rows)
    ensures IsSummary(rows, m)
  {
    var clicks, conversions, money := ClicksOfImpressions(rows), ConversionsOfClicks(rows), RevenueOfSpend(rows);
    SumsAreNatural(rows);
    SameSum(rows);
    m := CalculateMetrics(SumD(clicks), SumN(clicks), SumN(conversions), SumD(money), SumN(money));
  }

  /** What the stored metrics of a valid record are. */
  lemma StoredMetrics(r: Record)
    requires ValidRecord(r)
    ensures r.metrics.ctr.None? <==> r.payload.impressions == 0
    ensures r.metrics.conversionRate.None? <==> r.payload.clicks == 0
    ensures r.metrics.roi.None? <==> r.payload.spend == 0
    ensures r.metrics.ctr.Some? ==> NearestMillionth(r.metrics.ctr.value, r.payload.clicks, r.payload.impressions)
    ensures r.metrics.conversionRate.Some? ==>
              NearestMillionth(r.metrics.conversionRate.value, r.payload.conversions, r.payload.clicks)
    ensures r.metrics.roi.Some? ==> NearestMillionth(r.metrics.roi.value, r.payload.revenue, r.payload.spend)
  {
    RateMeans(r.payload.clicks, r.payload.impressions);
    RateMeans(r.payload.conversions, r.payload.clicks);
    RateMeans(r.payload.revenue, r.payload.spend);
  }

  /** The summary of one record is what is stored with it. */
  lemma SummaryOfOne(r: Record, m: Metrics)
    requires ValidRecord(r)
    ensures IsSummary([r], m) <==> m == r.metrics
  {
    var p := r.payload;
    assert ClicksOfImpressions([r]) == [Part(p.clicks, p.impressions)];
    assert ConversionsOfClicks([r]) == [Part(p.conversions, p.clicks)];
    assert RevenueOfSpend([r]) == [Part(p.revenue, p.spend)];
    SumOfOne(p.clicks, p.impressions);
    SumOfOne(p.conversions, p.clicks);
    SumOfOne(p.revenue, p.spend);
  }

  lemma SumOfOne(n: int, d: int)
    ensures SumN([Part(n, d)]) == n && SumD([Part(n, d)]) == d
  {
    assert [Part(n, d)][1..] == [];
  }

  lemma {:induction false} SameSum(rows: seq<Record>)
    ensures SumN(ClicksOfImpressions(rows)) == SumD(ConversionsOfClicks(rows))
  {
    if rows != [] {
      SameSum(rows[1..]);
      assert ClicksOfImpressions(rows)[1..] == ClicksOfImpressions(rows[1..]);
      assert ConversionsOfClicks(rows)[1..] == ConversionsOfClicks(rows[1..]);
    }
  }

  /** The summary's CTR against the CTRs stored with the records. */
  lemma SummaryBetweenRecords(rows: seq<Record>, m: Metrics, low: int, high: int)
    requires ValidRows(rows) && IsSummary(rows, m) && m.ctr.Some?
    requires forall i | 0 <= i < |rows| && rows[i].metrics.ctr.Some? :: low <= rows[i].metrics.ctr.value <= high
    ensures 0 <= m.ctr.value <= MILLION && low <= m.ctr.value <= high
  {
    var parts := ClicksOfImpressions(rows);
    CountsAreProper(rows);
    SumsAreNatural(rows);
    forall i | 0 <= i < |parts| && parts[i].d > 0 ensures low <= HalfUp(parts[i].n, parts[i].d, MILLION) <= high {
      assert rows[i].metrics == MetricsOf(rows[i].payload);
    }
    SummaryRateBetween(parts, low, high);
    ProportionAtMostOne(SumN(parts), SumD(parts));
  }

  lemma SummaryConversionBetweenRecords(rows: seq<Record>, m: Metrics, low: int, high: int)
    requires ValidRows(rows) && IsSummary(rows, m) && m.conversionRate.Some?
    requires forall i | 0 <= i < |rows| && rows[i].metrics.conversionRate.Some? ::
               low <= rows[i].metrics.conversionRate.value <= high
    ensures 0 <= m.conversionRate.value <= MILLION && low <= m.conversionRate.value <= high
  {
    var parts := ConversionsOfClicks(rows);
    CountsAreProper(rows);
    SumsAreNatural(rows);
    forall i | 0 <= i < |parts| && parts[i].d > 0 ensures low <= HalfUp(parts[i].n, parts[i].d, MILLION) <= high {
      assert rows[i].metrics == MetricsOf(rows[i].payload);
    }
    SummaryRateBetween(parts, low, high);
    ProportionAtMostOne(SumN(parts), SumD(parts));
  }

  /** The return: never below all stored returns, and above all of them only by revenue without spend. */
  lemma SummaryReturnBetweenRecords(rows: seq<Record>, m: Metrics, low: int, high: int)
    requires ValidRows(rows) && IsSummary(rows, m) && m.roi.Some?
    requires forall i | 0 <= i < |rows| && rows[i].metrics.roi.Some? :: low <= rows[i].metrics.roi.value <= high
    ensures low <= m.roi.value
    ensures m.roi.value > high ==>
              exists i :: 0 <= i < |rows| && rows[i].payload.spend == 0 && rows[i].payload.revenue > 0
  {
    var parts := RevenueOfSpend(rows);
    MoneyIsNatural(rows);
    SumsAreNatural(rows);
    forall i | 0 <= i < |parts| && parts[i].d > 0 ensures low <= HalfUp(parts[i].n, parts[i].d, MILLION) <= high {
      assert rows[i].metrics == MetricsOf(rows[i].payload);
    }
    SummaryRateBetween(parts, low, high);
    if !Rooted(parts) {
      var i :| 0 <= i < |parts| && parts[i].d == 0 && parts[i].n != 0;
      assert rows[i].payload.spend == 0 && rows[i].payload.revenue > 0;
    }
  }
}
