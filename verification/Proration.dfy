/** Daily proration and the two quotes built on it (src/lib/proration.ts,
    src/modules/billing/billing.service.ts). Amounts are whole minor units; rounding is on exact
    quotients. */
module Proration {
  import opened Common
  import opened Webhooks

  datatype Quote = Quote(amount: int, remainingDays: int, periodDays: int)

  datatype QuoteResult = Quoted(quote: Quote) | Uncomputable | SubscriptionNotFound

  function PeriodDays(c: Cycle): int {
    match c
    case Monthly => 30
    case Yearly => 365
  }

  /** Rounds up. */
  function CeilDiv(a: int, b: int): int
    requires b > 0
  {
    -((-a) / b)
  }

  function Prorate(fullPrice: int, cycle: Cycle, periodEnd: Time, now: Time): QuoteResult {
    var period := PeriodDays(cycle);
    var left := periodEnd - now;
    if left <= 0 then Uncomputable
    else
      var days := Min(period, CeilDiv(left, DAY_MS));
      Quoted(Quote(RoundDiv(fullPrice * days, period), days, period))
  }

  // ---- rounding ----

  lemma Scaled(x: int, y: int, k: int)
    requires k >= 0
    ensures x <= y ==> x * k <= y * k
  {
  }

  lemma CeilDivIs(a: int, b: int)
    requires b > 0
    ensures (CeilDiv(a, b) - 1) * b < a <= CeilDiv(a, b) * b
  {
  }

  lemma CeilDivMonotone(a: int, a': int, b: int)
    requires b > 0 && a <= a'
    ensures CeilDiv(a, b) <= CeilDiv(a', b)
  {
    CeilDivIs(a, b);
    CeilDivIs(a', b);
    Scaled(CeilDiv(a', b), CeilDiv(a, b) - 1, b);
  }

  /** The multiple of `b` nearest to `a`, the upper one when two are. */
  lemma RoundDivIs(a: int, b: int)
    requires b > 0
    ensures -b < 2 * (RoundDiv(a, b) * b - a) <= b
  {
    var q := RoundDiv(a, b);
    assert q * (2 * b) <= 2 * a + b < (q + 1) * (2 * b);
    assert q * (2 * b) == 2 * (q * b) && (q + 1) * (2 * b) == 2 * (q * b) + 2 * b;
  }

  lemma RoundDivMonotone(a: int, a': int, b: int)
    requires b > 0 && a <= a'
    ensures RoundDiv(a, b) <= RoundDiv(a', b)
  {
    var q, q' := RoundDiv(a, b), RoundDiv(a', b);
    RoundDivIs(a, b);
    RoundDivIs(a', b);
    Scaled(q' + 1, q, b);
    assert (q' + 1) * b == q' * b + b;
  }

  lemma RoundDivExact(p: int, b: int)
    requires b > 0
    ensures RoundDiv(p * b, b) == p
  {
    var q := RoundDiv(p * b, b);
    RoundDivIs(p * b, b);
    Scaled(q + 1, p, b);
    Scaled(p + 1, q, b);
    assert (q + 1) * b == q * b + b && (p + 1) * b == p * b + b;
  }

  lemma NearMultiples(x: int, y: int, z: int, a: int, b: int, n: int)
    requires n > 0
    requires -n < 2 * (x * n - a) <= n && -n < 2 * (y * n - b) <= n && -n < 2 * (z * n - (a + b)) <= n
    ensures -1 <= x + y - z <= 1
  {
    var d := x + y - z;
    assert d * n == x * n + y * n - z * n;
    Scaled(2, d, n);
    Scaled(d, -2, n);
  }

  /** Rounding two parts instead of their sum shifts the result by at most one. */
  lemma RoundDivSplit(a: int, b: int, n: int)
    requires n > 0
    ensures -1 <= RoundDiv(a, n) + RoundDiv(b, n) - RoundDiv(a + b, n) <= 1
  {
    var x, y, z := RoundDiv(a, n), RoundDiv(b, n), RoundDiv(a + b, n);
    RoundDivIs(a, n);
    RoundDivIs(b, n);
    RoundDivIs(a + b, n);
    NearMultiples(x, y, z, a, b, n);
  }

  // ---- what a quote promises ----

  /** The days a quote covers: at least one, at most the period, and a started day counts. */
  lemma QuoteDays(cycle: Cycle, periodEnd: Time, now: Time)
    requires periodEnd > now
    ensures var days := Min(PeriodDays(cycle), CeilDiv(periodEnd - now, DAY_MS));
            && 1 <= days <= PeriodDays(cycle)
            && (days < PeriodDays(cycle) ==> (days - 1) * DAY_MS < periodEnd - now <= days * DAY_MS)
  {
    CeilDivIs(periodEnd - now, DAY_MS);
  }

  /** The amount lies within half a unit of the exact share, and never above the full price. */
  lemma ShareBounds(price: int, days: int, period: int)
    requires price >= 0 && 0 <= days <= period && period > 0
    ensures 0 <= RoundDiv(price * days, period) <= price
    ensures -period < 2 * (RoundDiv(price * days, period) * period - price * days) <= period
  {
    RoundDivIs(price * days, period);
    Scaled(0, days, price);
    Scaled(days, period, price);
    assert days * price == price * days && period * price == price * period;
    RoundDivMonotone(0, price * days, period);
    RoundDivMonotone(price * days, price * period, period);
    RoundDivExact(price, period);
    RoundDivExact(0, period);
  }

  /** The amount is the whole number nearest to the exact share of `days` days, halves rounded up. */
  predicate NearestShare(amount: int, fullPrice: int, days: int, period: int) {
    -period < 2 * (amount * period - fullPrice * days) <= period
  }

  /** A charge is refused exactly when the period is over. Otherwise it covers the started days that
      are left, at most the period of 30 or 365 days, and costs the nearest share of the price. */
  lemma QuoteBounds(fullPrice: int, cycle: Cycle, periodEnd: Time, now: Time)
    requires fullPrice >= 0
    ensures var r, period, left := Prorate(fullPrice, cycle, periodEnd, now), if cycle == Monthly then 30 else 365, periodEnd - now;
            && (r.Quoted? <==> left > 0) && (!r.Quoted? ==> r == Uncomputable)
            && (r.Quoted? ==>
                  var q := r.quote;
                  && q.periodDays == period && 1 <= q.remainingDays <= period
                  && (q.remainingDays - 1) * DAY_MS < left && (left <= q.remainingDays * DAY_MS || q.remainingDays == period)
                  && 0 <= q.amount <= fullPrice && NearestShare(q.amount, fullPrice, q.remainingDays, period))
  {
    if periodEnd > now {
      CeilDivIs(periodEnd - now, DAY_MS);
      QuoteDays(cycle, periodEnd, now);
      ShareBounds(fullPrice, Min(PeriodDays(cycle), CeilDiv(periodEnd - now, DAY_MS)), PeriodDays(cycle));
    }
  }

  lemma ShareMonotone(p: int, p': int, days: int, days': int, period: int)
    requires 0 <= p <= p' && 0 <= days <= days' && period > 0
    ensures RoundDiv(p * days, period) <= RoundDiv(p' * days', period)
  {
    Scaled(p, p', days);
    Scaled(days, days', p');
    assert days * p' == p' * days && days' * p' == p' * days';
    RoundDivMonotone(p * days, p' * days', period);
  }

  /** A dearer plan never quotes lower, and neither does more time left. */
  lemma QuoteMonotone(p: int, p': int, cycle: Cycle, periodEnd: Time, now: Time, now': Time)
    requires 0 <= p <= p' && now' <= now < periodEnd
    ensures Prorate(p, cycle, periodEnd, now).Quoted? && Prorate(p', cycle, periodEnd, now').Quoted?
    ensures Prorate(p, cycle, periodEnd, now).quote.amount <= Prorate(p', cycle, periodEnd, now').quote.amount
  {
    QuoteDays(cycle, periodEnd, now);
    CeilDivMonotone(periodEnd - now, periodEnd - now', DAY_MS);
    ShareMonotone(p, p', Min(PeriodDays(cycle), CeilDiv(periodEnd - now, DAY_MS)),
                  Min(PeriodDays(cycle), CeilDiv(periodEnd - now', DAY_MS)), PeriodDays(cycle));
  }

  // ---- the two charges ----

  datatype Plan = Plan(monthly: int, yearly: int)

  function PlanPrice(plan: Plan, cycle: Cycle): int {
    if cycle == Yearly then plan.yearly else plan.monthly
  }

  /** `planChange`: only an upgrade is charged, for the rest of the period. The subscription's
      plan and cycle may be missing; the caller may ask for another cycle. */
  function PlanChange(sub: Option<(Plan, Cycle, Time)>, target: Option<Plan>, asked: Option<Cycle>, now: Time): QuoteResult {
    if sub.None? then SubscriptionNotFound
    else if target.None? then Uncomputable
    else
      var (plan, own, periodEnd) := sub.value;
      var cycle := if asked.Some? then asked.value else own;
      var difference := PlanPrice(target.value, cycle) - PlanPrice(plan, cycle);
      if difference <= 0 then Uncomputable else Prorate(difference, cycle, periodEnd, now)
  }

  /** `overflowUpgrade`: a slot beyond the plan's limit, for the rest of the period. */
  function OverflowUpgrade(sub: Option<(Plan, Cycle, Time)>, atLimit: bool, price: int, now: Time): QuoteResult {
    if sub.None? then SubscriptionNotFound
    else if !atLimit then Uncomputable
    else Prorate(price, sub.value.1, sub.value.2, now)
  }

  /** Upgrading in two hops quoted at one instant costs the same as upgrading at once, give or
      take one minor unit. */
  lemma TwoHopsCostTheSame(a: Plan, b: Plan, c: Plan, own: Cycle, asked: Option<Cycle>, periodEnd: Time, now: Time)
    requires periodEnd > now
    requires if asked == Some(Yearly) || (asked == None && own == Yearly) then a.yearly < b.yearly < c.yearly
             else a.monthly < b.monthly < c.monthly
    ensures var first := PlanChange(Some((a, own, periodEnd)), Some(b), asked, now);
            var second := PlanChange(Some((b, own, periodEnd)), Some(c), asked, now);
            var direct := PlanChange(Some((a, own, periodEnd)), Some(c), asked, now);
            && first.Quoted? && second.Quoted? && direct.Quoted?
            && -1 <= first.quote.amount + second.quote.amount - direct.quote.amount <= 1
  {
    var cycle := if asked.Some? then asked.value else own;
    var x, y := PlanPrice(b, cycle) - PlanPrice(a, cycle), PlanPrice(c, cycle) - PlanPrice(b, cycle);
    var days := Min(PeriodDays(cycle), CeilDiv(periodEnd - now, DAY_MS));
    assert (x + y) * days == x * days + y * days;
    assert PlanPrice(c, cycle) - PlanPrice(a, cycle) == x + y;
    RoundDivSplit(x * days, y * days, PeriodDays(cycle));
  }

  /** A plan change is charged exactly if the target costs more in the asked cycle, or else the
      subscription's own, and the period is open: the nearest share of the difference for the days
      left. A missing subscription and everything else that is not charged each give their error. */
  lemma OnlyUpgradesAreCharged(plan: Plan, own: Cycle, periodEnd: Time, target: Plan, asked: Option<Cycle>, now: Time)
    ensures var yearly := asked == Some(Yearly) || (asked == None && own == Yearly);
            var difference := if yearly then target.yearly - plan.yearly else target.monthly - plan.monthly;
            var r := PlanChange(Some((plan, own, periodEnd)), Some(target), asked, now);
            && (r.Quoted? <==> difference > 0 && periodEnd > now) && (!r.Quoted? ==> r == Uncomputable)
            && (r.Quoted? ==>
                  && r.quote.periodDays == (if yearly then 365 else 30)
                  && 0 <= r.quote.amount <= difference
                  && (r.quote.remainingDays - 1) * DAY_MS < periodEnd - now
                  && (periodEnd - now <= r.quote.remainingDays * DAY_MS || r.quote.remainingDays == r.quote.periodDays)
                  && NearestShare(r.quote.amount, difference, r.quote.remainingDays, r.quote.periodDays))
    ensures PlanChange(None, Some(target), asked, now) == SubscriptionNotFound
    ensures PlanChange(Some((plan, own, periodEnd)), None, asked, now) == Uncomputable
  {
    var cycle := if asked.Some? then asked.value else own;
    var difference := PlanPrice(target, cycle) - PlanPrice(plan, cycle);
    if difference > 0 { QuoteBounds(difference, cycle, periodEnd, now); }
  }

  /** An extra slot is quoted exactly when the family is at its limit and the period is open: the
      nearest share of the slot's price for the days left of the subscription's own cycle, and the
      price for a whole period. */
  lemma OverflowIsChargedAtTheLimit(plan: Plan, own: Cycle, periodEnd: Time, atLimit: bool, price: int, now: Time)
    requires price > 0
    ensures var r := OverflowUpgrade(Some((plan, own, periodEnd)), atLimit, price, now);
            && (r.Quoted? <==> atLimit && periodEnd > now) && (!r.Quoted? ==> r == Uncomputable)
            && (r.Quoted? ==>
                  && r.quote.periodDays == (if own == Yearly then 365 else 30)
                  && (r.quote.remainingDays - 1) * DAY_MS < periodEnd - now
                  && (periodEnd - now <= r.quote.remainingDays * DAY_MS || r.quote.remainingDays == r.quote.periodDays)
                  && NearestShare(r.quote.amount, price, r.quote.remainingDays, r.quote.periodDays)
                  && (r.quote.remainingDays == r.quote.periodDays ==> r.quote.amount == price))
    ensures OverflowUpgrade(None, atLimit, price, now) == SubscriptionNotFound
  {
    QuoteBounds(price, own, periodEnd, now);
    RoundDivExact(price, PeriodDays(own));
  }
}
