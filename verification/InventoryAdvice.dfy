/**
 Restock advice (services/inventory_advice.py). The multiplier is in hundredths, the daily rate in
 ten-thousandths of a unit per day.
 */
module InventoryAdvice {
  import opened Common
  import opened Decimals

  datatype Request = Request(lookbackDays: int, coverageDays: int, multiplier: int, minEvents: int)

  /** The bounds of the request schema. */
  predicate ValidRequest(q: Request) {
    && 7 <= q.lookbackDays <= 90 && 1 <= q.coverageDays <= 90
    && 100 <= q.multiplier <= 300 && 1 <= q.minEvents <= 20
  }

  /** One SKU with the sums over its outbound movements. */
  datatype SkuStock = SkuStock(stock: int, locked: int, warning: int, outboundQty: int, outboundEvents: int)

  predicate ValidStock(s: SkuStock) {
    0 <= s.locked <= s.stock && s.warning >= 0 && s.outboundQty >= 0 && s.outboundEvents >= 0
  }

  datatype AdviceAction = Replenish | Monitor | Healthy

  datatype Priority = Critical | High | Medium | Low

  datatype Advice = Advice(available: int, dailyRate: int, target: int, restock: int,
                           action: AdviceAction, priority: Priority)

  const RATE_STEPS: int := 10_000

  function CeilDiv(a: int, b: int): int
    requires a >= 0 && b > 0
  {
    (a + b - 1) / b
  }

  function PriorityOf(available: int, warning: int, outboundQty: int, restock: int): Priority {
    if available == 0 && outboundQty > 0 then Critical
    else if available <= warning then High
    else if restock > 0 then Medium
    else Low
  }

  function DailyRate(s: SkuStock, q: Request): int
    requires ValidStock(s) && ValidRequest(q)
  {
    HalfEven(s.outboundQty, q.lookbackDays, RATE_STEPS)
  }

  /** Rounded rate times days times multiplier, rounded up to whole units. */
  function DemandTarget(rate: int, q: Request): int
    requires rate >= 0 && ValidRequest(q)
  {
    CeilDiv(rate * (q.coverageDays * q.multiplier), RATE_STEPS * 100)
  }

  /** The same target without rounding the rate. */
  function ExactTarget(s: SkuStock, q: Request): int
    requires ValidStock(s) && ValidRequest(q)
  {
    CeilDiv(s.outboundQty * (q.coverageDays * q.multiplier), q.lookbackDays * 100)
  }

  // ----- rounding the rate moves the target by at most one ----------------------

  lemma CeilDivIs(a: int, b: int)
    requires a >= 0 && b > 0
    ensures (CeilDiv(a, b) - 1) * b < a <= CeilDiv(a, b) * b
  {
    DivBounds(a + b - 1, b);
  }

  lemma CeilDivAtMost(a: int, b: int, c: int)
    requires a >= 0 && b > 0 && a <= c * b
    ensures CeilDiv(a, b) <= c
  {
    CeilDivIs(a, b);
    if CeilDiv(a, b) > c {
      MulMono(c, CeilDiv(a, b) - 1, b);
    }
  }

  /** Rounding up: the least whole number that is enough. */
  lemma CeilDivIsLeast(a: int, b: int, c: int)
    requires a >= 0 && b > 0
    ensures CeilDiv(a, b) <= c <==> a <= c * b
  {
    if a <= c * b {
      CeilDivAtMost(a, b, c);
    } else if CeilDiv(a, b) <= c {
      CeilDivIs(a, b);
      MulMono(CeilDiv(a, b), c, b);
    }
  }

  lemma NearestRate(s: SkuStock, q: Request)
    requires ValidStock(s) && ValidRequest(q)
    ensures var r := DailyRate(s, q);
            r >= 0 && -q.lookbackDays <= 2 * (r * q.lookbackDays - s.outboundQty * RATE_STEPS) <= q.lookbackDays
  {
    HalfEvenIsNear(s.outboundQty, q.lookbackDays, RATE_STEPS);
  }

  lemma HalfEvenIsNear(n: int, d: int, steps: int)
    requires n >= 0 && d > 0 && steps > 0
    ensures var r := HalfEven(n, d, steps); r >= 0 && -d <= 2 * (r * d - n * steps) <= d
  {
    var r := HalfEven(n, d, steps);
    HalfEvenIs(n, d, steps, r);
    OddMultiples(r, d);
    assert 2 * n * steps == 2 * (n * steps);
    SumIsNatural(r, d, n * steps);
  }

  lemma OddMultiples(r: int, d: int)
    ensures (2 * r - 1) * d == 2 * (r * d) - d && (2 * r + 1) * d == 2 * (r * d) + d
  {
  }

  lemma SumIsNatural(r: int, d: int, x: int)
    requires d > 0 && x >= 0 && 2 * x <= 2 * (r * d) + d
    ensures r >= 0
  {
    if r < 0 {
      MulMono(r, -1, d);
    }
  }

  /** Both comparisons in integers: `f` is days times multiplier, at most 27000. */
  lemma RoundedUpper(rate: int, qty: int, lookback: int, f: int, exact: int)
    requires rate >= 0 && qty >= 0 && lookback > 0 && 0 < f <= 27_000
    requires 2 * (rate * lookback - qty * RATE_STEPS) <= lookback
    requires qty * f <= exact * (lookback * 100)
    ensures rate * f <= (exact + 1) * (RATE_STEPS * 100)
  {
    MulMono(2 * (rate * lookback - qty * RATE_STEPS), lookback, f);
    var x := 2 * (rate * f) - 2 * exact * 1_000_000 - f;
    assert x * lookback <= 0 by {
      assert 2 * (rate * lookback - qty * RATE_STEPS) * f == 2 * (rate * f) * lookback - 2 * RATE_STEPS * (qty * f);
      assert exact * (lookback * 100) == exact * lookback * 100;
      assert x * lookback == 2 * (rate * f) * lookback - 2 * 1_000_000 * (exact * lookback) - f * lookback;
    }
    if x > 0 {
      MulMono(1, x, lookback);
    }
  }

  lemma RoundedLower(rate: int, qty: int, lookback: int, f: int, demand: int)
    requires rate >= 0 && qty >= 0 && lookback > 0 && 0 < f <= 27_000
    requires -lookback <= 2 * (rate * lookback - qty * RATE_STEPS)
    requires rate * f <= demand * (RATE_STEPS * 100)
    ensures qty * f <= (demand + 1) * (lookback * 100)
  {
    MulMono(-lookback, 2 * (rate * lookback - qty * RATE_STEPS), f);
    MulMono(rate * f, demand * (RATE_STEPS * 100), lookback);
    MulMono(f, 27_000, lookback);
    assert 2 * (rate * lookback - qty * RATE_STEPS) * f == 2 * ((rate * f) * lookback) - 2 * RATE_STEPS * (qty * f);
    assert (-lookback) * f == -(f * lookback);
    assert demand * (RATE_STEPS * 100) * lookback == 1_000_000 * (demand * lookback);
    assert (demand + 1) * (lookback * 100) == 100 * (demand * lookback) + 100 * lookback;
  }

  /** The same for any rate that is nearest to the exact one, over at most 27000 days times hundredths. */
  lemma TargetsAreClose(rate: int, qty: int, lookback: int, f: int)
    requires rate >= 0 && qty >= 0 && lookback > 0 && 0 < f <= 27_000 && rate * f >= 0 && qty * f >= 0
    requires -lookback <= 2 * (rate * lookback - qty * RATE_STEPS) <= lookback
    ensures -1 <= CeilDiv(rate * f, RATE_STEPS * 100) - CeilDiv(qty * f, lookback * 100) <= 1
  {
    var exact := CeilDiv(qty * f, lookback * 100);
    var demand := CeilDiv(rate * f, RATE_STEPS * 100);
    CeilDivIs(qty * f, lookback * 100);
    CeilDivIs(rate * f, RATE_STEPS * 100);
    RoundedUpper(rate, qty, lookback, f, exact);
    CeilDivAtMost(rate * f, RATE_STEPS * 100, exact + 1);
    RoundedLower(rate, qty, lookback, f, demand);
    CeilDivAtMost(qty * f, lookback * 100, demand + 1);
  }

  lemma FactorBounds(days: int, multiplier: int)
    requires 1 <= days <= 90 && 100 <= multiplier <= 300
    ensures 0 < days * multiplier <= 27_000
  {
    MulMono(1, days, multiplier);
    MulMono(days, 90, multiplier);
  }

  /** For every permitted request the target lies within one unit of the exact ceiling. */
  lemma TargetWithinOne(s: SkuStock, q: Request)
    requires ValidStock(s) && ValidRequest(q)
    ensures DailyRate(s, q) >= 0
    ensures -1 <= DemandTarget(DailyRate(s, q), q) - ExactTarget(s, q) <= 1
  {
    NearestRate(s, q);
    FactorBounds(q.coverageDays, q.multiplier);
    MulMono(0, DailyRate(s, q), q.coverageDays * q.multiplier);
    MulMono(0, s.outboundQty, q.coverageDays * q.multiplier);
    TargetsAreClose(DailyRate(s, q), s.outboundQty, q.lookbackDays, q.coverageDays * q.multiplier);
  }

  /** The service divides at 28 digits before it quantizes the rate; that is the same half-even rounding. */
  lemma RateIsOneRounding(s: SkuStock, q: Request, m: int, scale: int)
    requires ValidStock(s) && ValidRequest(q) && s.outboundQty * RATE_STEPS < PRECISION_28
    requires IsQuotient28(s.outboundQty, q.lookbackDays, m, scale)
    ensures scale > 0 && HalfEven(m, scale, RATE_STEPS) == DailyRate(s, q)
  {
    assert IsPowerOfTen(1) && IsPowerOfTen(10) && IsPowerOfTen(100) && IsPowerOfTen(1000) && IsPowerOfTen(RATE_STEPS);
    PowerPositive(scale);
    QuantizedQuotientIsExact(s.outboundQty, q.lookbackDays, m, scale, RATE_STEPS);
  }

  // ----- the advice for one SKU -------------------------------------------------

  /** The daily rate is nearest to what went out by day, in ten-thousandths, and even at a tie. */
  predicate NearestDailyRate(s: SkuStock, q: Request, rate: int) {
    var twice := 2 * s.outboundQty * 10_000;
    var below, above := (2 * rate - 1) * q.lookbackDays, (2 * rate + 1) * q.lookbackDays;
    below < twice < above || (rate % 2 == 0 && (twice == below || twice == above))
  }

  /** Enough: above the warning threshold, and for all the days to be covered at that rate. */
  predicate Enough(s: SkuStock, q: Request, rate: int, t: int) {
    t > s.warning && rate * (q.coverageDays * q.multiplier) <= t * 1_000_000
  }

  lemma TargetIsLeast(s: SkuStock, q: Request, rate: int, t: int)
    requires ValidStock(s) && ValidRequest(q) && rate >= 0
    ensures Max(s.warning + 1, DemandTarget(rate, q)) <= t <==> Enough(s, q, rate, t)
  {
    FactorBounds(q.coverageDays, q.multiplier);
    MulMono(0, rate, q.coverageDays * q.multiplier);
    CeilDivIsLeast(rate * (q.coverageDays * q.multiplier), 1_000_000, t);
  }

  /** What the advice promises, in terms of the stock it was computed from. */
  ghost predicate Sensible(s: SkuStock, q: Request, a: Advice) {
    && NearestDailyRate(s, q, a.dailyRate)
    && (forall t: int :: a.target <= t <==> Enough(s, q, a.dailyRate, t))
    && a.available == s.stock - s.locked
    && a.restock >= 0
    && a.available + a.restock > s.warning
    && a.available + a.restock >= a.target
    && (a.restock > 0 ==> a.available + a.restock == a.target)
    && (a.priority == Low <==> a.restock == 0)
    && (a.priority == Critical <==> a.available == 0 && s.outboundQty > 0)
    && (a.priority == High <==> a.priority != Critical && a.available <= s.warning)
    && (a.action == Monitor <==> s.outboundEvents < q.minEvents)
    && (a.action == Replenish <==> s.outboundEvents >= q.minEvents && a.restock > 0)
  }

  method AdviseOne(s: SkuStock, q: Request) returns (a: Advice)
    requires ValidStock(s) && ValidRequest(q)
    ensures Sensible(s, q, a)
    ensures a.dailyRate == DailyRate(s, q) >= 0
    ensures a.target == Max(s.warning + 1, DemandTarget(a.dailyRate, q))
  {
    NearestRate(s, q);
    HalfEvenIs(s.outboundQty, q.lookbackDays, RATE_STEPS, DailyRate(s, q));
    var available := s.stock - s.locked;
    var sufficient := s.outboundEvents >= q.minEvents;
    var rate := DailyRate(s, q);
    var target := Max(s.warning + 1, DemandTarget(rate, q));
    forall t: int ensures target <= t <==> Enough(s, q, rate, t) {
      TargetIsLeast(s, q, rate, t);
    }
    var restock := Max(0, target - available);
    var action := Healthy;
    if !sufficient {
      action := Monitor;
    } else if restock > 0 {
      action := Replenish;
    }
    a := Advice(available, rate, target, restock, action, PriorityOf(available, s.warning, s.outboundQty, restock));
  }

  function CountAction(items: seq<Advice>, action: AdviceAction): nat {
    if items == [] then 0
    else CountAction(items[..|items| - 1], action) + (if items[|items| - 1].action == action then 1 else 0)
  }

  datatype RunSummary = RunSummary(itemCount: nat, replenish: nat, insufficient: nat)

  /** The loop over the SKUs of a store: one sensible item per SKU, and counters that partition them. */
  method GenerateAdvice(rows: seq<SkuStock>, q: Request) returns (items: seq<Advice>, run: RunSummary)
    requires ValidRequest(q) && forall i | 0 <= i < |rows| :: ValidStock(rows[i])
    ensures |items| == |rows| == run.itemCount
    ensures forall i | 0 <= i < |rows| ::
              Sensible(rows[i], q, items[i]) && items[i].dailyRate == DailyRate(rows[i], q) >= 0
              && items[i].target == Max(rows[i].warning + 1, DemandTarget(items[i].dailyRate, q))
    ensures run.replenish == CountAction(items, Replenish) && run.insufficient == CountAction(items, Monitor)
    ensures run.replenish + run.insufficient + CountAction(items, Healthy) == run.itemCount
  {
    items := [];
    var replenishCount, insufficientCount := 0, 0;
    for k := 0 to |rows|
      invariant |items| == k
      invariant forall i | 0 <= i < k ::
                  Sensible(rows[i], q, items[i]) && items[i].dailyRate == DailyRate(rows[i], q) >= 0
                  && items[i].target == Max(rows[i].warning + 1, DemandTarget(items[i].dailyRate, q))
      invariant replenishCount == CountAction(items, Replenish)
      invariant insufficientCount == CountAction(items, Monitor)
      invariant replenishCount + insufficientCount + CountAction(items, Healthy) == k
    {
      var a := AdviseOne(rows[k], q);
      AppendedLast(items, a);
      if a.action == Monitor {
        insufficientCount := insufficientCount + 1;
      } else if a.action == Replenish {
        replenishCount := replenishCount + 1;
      }
      items := items + [a];
    }
    run := RunSummary(|rows|, replenishCount, insufficientCount);
  }
}
