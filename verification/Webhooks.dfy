/** Provider webhooks and the billing calls around them (src/modules/webhooks/webhooks.service.ts,
    src/modules/webhooks/transition.ts, src/modules/billing/billing.service.ts), and the other writers
    of a subscription: plan selection (src/modules/onboarding/onboarding.service.ts) and the retention
    tombstone (src/modules/settings/settings.service.ts).

    A webhook is one transaction: the ledger row, the intent, the subscription and the invoice
    change together. Runs are arbitrary sequences of deliveries, repeats included, mixed with
    cancellations, reactivations, plan selections and new payment intents. */
module Webhooks {
  import opened Common

  datatype Status = Pending | Active | PastDue | Canceled

  datatype EventType =
    PaymentSucceeded | PaymentFailed | RenewalSucceeded | RenewalFailed | Refunded | Disputed

  datatype Purpose = Activation | Renewal | Overflow | Upgrade

  datatype IntentStatus = Created | Succeeded | Failed

  datatype Cycle = Monthly | Yearly

  datatype InvoiceStatus = Paid | Open | Void

  datatype Subscription = Subscription(
    status: Status, cycle: Cycle, planId: Id, slotsUsed: nat, periodEnd: Time, canceledEffectiveAt: Option<Time>)

  datatype Intent = Intent(
    id: Id, sub: Id, purpose: Purpose, expected: int, providerRef: string, targetPlan: Option<Id>, status: IntentStatus)

  datatype Invoice = Invoice(sub: Id, issuedAt: Time, amount: int, status: InvoiceStatus)

  /** An empty `intentId` or `subscriptionId` stands for absent metadata. */
  datatype Event = Event(
    id: Id, kind: EventType, providerRef: string, amount: Option<int>, intentId: Id, subscriptionId: Id)

  /** `seen` is the webhook ledger: each event id with its `processedAt`. */
  datatype Store = Store(
    seen: map<Id, Time>, intents: seq<Intent>, subs: map<Id, Subscription>, invoices: seq<Invoice>)

  // ---- one transition ----

  function ResolveTransition(current: Status, event: EventType): Option<Status> {
    match event
    case PaymentSucceeded => if current == Canceled then None else Some(Active)
    case RenewalSucceeded => if current in {Active, PastDue} then Some(Active) else None
    case PaymentFailed | RenewalFailed | Disputed => if current == Active then Some(PastDue) else None
    case Refunded => if current in {Active, PastDue} then Some(PastDue) else None
  }

  function PeriodMs(c: Cycle): Time {
    match c
    case Monthly => 30 * DAY_MS
    case Yearly => 365 * DAY_MS
  }

  function ExtendedPeriodEnd(sub: Subscription, now: Time): Time {
    (if sub.periodEnd > now then sub.periodEnd else now) + PeriodMs(sub.cycle)
  }

  function FreshPeriodEnd(sub: Subscription, now: Time): Time {
    now + PeriodMs(sub.cycle)
  }

  // ---- resolving an event ----

  predicate Matches(x: Intent, e: Event) {
    if e.intentId != "" then x.id == e.intentId else x.providerRef == e.providerRef
  }

  /** The first matching intent, as the database lists them. */
  function FindIntent(intents: seq<Intent>, e: Event): (i: Option<nat>)
    ensures i.Some? ==> i.value < |intents| && Matches(intents[i.value], e)
    ensures i.Some? ==> forall j :: 0 <= j < i.value ==> !Matches(intents[j], e)
    ensures i.None? ==> forall j :: 0 <= j < |intents| ==> !Matches(intents[j], e)
  {
    if intents == [] then None
    else
      var rest := FindIntent(intents[..|intents| - 1], e);
      if rest.Some? then rest
      else if Matches(intents[|intents| - 1], e) then Some(|intents| - 1) else None
  }

  predicate IsSuccess(kind: EventType) {
    kind == PaymentSucceeded || kind == RenewalSucceeded
  }

  /** The most recently issued PAID invoice. */
  function LastPaid(invoices: seq<Invoice>, sub: Id): (i: Option<nat>)
    ensures i.Some? ==> i.value < |invoices| && invoices[i.value].sub == sub && invoices[i.value].status == Paid
    ensures i.Some? ==> forall j :: 0 <= j < |invoices| && invoices[j].sub == sub && invoices[j].status == Paid
                          ==> invoices[j].issuedAt <= invoices[i.value].issuedAt
    ensures i.None? ==> forall j :: 0 <= j < |invoices| ==> !(invoices[j].sub == sub && invoices[j].status == Paid)
  {
    if invoices == [] then None
    else
      var n := |invoices| - 1;
      var rest := LastPaid(invoices[..n], sub);
      if invoices[n].sub == sub && invoices[n].status == Paid
         && (rest.None? || invoices[rest.value].issuedAt <= invoices[n].issuedAt) then Some(n)
      else rest
  }

  // ---- effects ----

  function SetIntent(d: Store, i: nat, status: IntentStatus): Store
    requires i < |d.intents|
  {
    d.(intents := d.intents[i := d.intents[i].(status := status)])
  }

  function SetSub(d: Store, s: Id, sub: Subscription): Store {
    d.(subs := d.subs[s := sub])
  }

  function WritePaidInvoice(d: Store, s: Id, amount: int, now: Time): Store {
    d.(invoices := d.invoices + [Invoice(s, now, amount, Paid)])
  }

  function AfterLifecycle(d: Store, s: Id, e: Event): Store
    requires s in d.subs
  {
    var next := ResolveTransition(d.subs[s].status, e.kind);
    if next.None? then d
    else
      var lastPaid := LastPaid(d.invoices, s);
      var d1 := if e.kind == Refunded && lastPaid.Some?
                then d.(invoices := d.invoices[lastPaid.value := d.invoices[lastPaid.value].(status := Void)]) else d;
      SetSub(d1, s, d.subs[s].(status := next.value))
  }

  /** The subscription after a successful charge. */
  function Charged(sub: Subscription, x: Intent, now: Time): Subscription {
    match x.purpose
    case Activation =>
      sub.(status := Active, periodEnd := if sub.status == Pending then FreshPeriodEnd(sub, now) else ExtendedPeriodEnd(sub, now))
    case Renewal => sub.(status := Active, periodEnd := ExtendedPeriodEnd(sub, now))
    case Overflow => sub.(slotsUsed := sub.slotsUsed + 1)
    case Upgrade => if x.targetPlan.Some? then sub.(planId := x.targetPlan.value, status := Active) else sub
  }

  function AfterIntentEffect(d: Store, i: nat, e: Event, now: Time): Store
    requires i < |d.intents| && d.intents[i].sub in d.subs
  {
    var x := d.intents[i];
    if !IsSuccess(e.kind) then AfterLifecycle(SetIntent(d, i, Failed), x.sub, e)
    else WritePaidInvoice(SetSub(SetIntent(d, i, Succeeded), x.sub, Charged(d.subs[x.sub], x, now)), x.sub, x.expected, now)
  }

  predicate AmountMismatch(x: Intent, e: Event) {
    IsSuccess(e.kind) && e.amount.Some? && e.amount.value != x.expected
  }

  function AfterEvent(d: Store, e: Event, now: Time): Store {
    var i := FindIntent(d.intents, e);
    if i.None? then
      if e.subscriptionId != "" && e.subscriptionId in d.subs then AfterLifecycle(d, e.subscriptionId, e) else d
    else if d.intents[i.value].sub !in d.subs then d
    else if AmountMismatch(d.intents[i.value], e) then SetIntent(d, i.value, Failed)
    else AfterIntentEffect(d, i.value, e, now)
  }

  function AfterWebhook(d: Store, e: Event, now: Time): Store {
    if e.id in d.seen then d else AfterEvent(d.(seen := d.seen[e.id := now]), e, now)
  }

  // ---- the calls around the webhooks ----

  /** `cancel` asks nothing of the current status. */
  function AfterCancel(d: Store, s: Id): Store {
    if s !in d.subs then d
    else SetSub(d, s, d.subs[s].(status := Canceled, canceledEffectiveAt := Some(d.subs[s].periodEnd)))
  }

  predicate Reactivatable(sub: Subscription, now: Time) {
    sub.status == Canceled && sub.canceledEffectiveAt.Some? && sub.canceledEffectiveAt.value > now
  }

  function AfterReactivate(d: Store, s: Id, now: Time): Store {
    if s !in d.subs || !Reactivatable(d.subs[s], now) then d
    else SetSub(d, s, d.subs[s].(status := Active, canceledEffectiveAt := None))
  }

  /** `initiate`, `overflowUpgrade` and `planChange` add an intent; its id is new. */
  function AddIntent(d: Store, x: Intent): Store {
    if exists j :: 0 <= j < |d.intents| && d.intents[j].id == x.id then d
    else d.(intents := d.intents + [x.(status := Created)])
  }

  /** `selectPlan` upserts the family's subscription and asks nothing of its status: an existing one
      gets plan, cycle and PENDING and keeps its dates and slots. None stands for an unknown plan. */
  function AfterSelect(d: Store, s: Id, plan: Option<Id>, cycle: Cycle, at: Time): Store {
    if plan.None? then d
    else if s in d.subs then SetSub(d, s, d.subs[s].(planId := plan.value, status := Pending, cycle := cycle))
    else SetSub(d, s, Subscription(Pending, cycle, plan.value, 0, at + 30 * DAY_MS, None))
  }

  /** The tombstone's subscription is created CANCELED, without a date. */
  function AfterTombstone(d: Store, s: Id, plan: Id): Store {
    if s in d.subs then d else SetSub(d, s, Subscription(Canceled, Monthly, plan, 0, 0, None))
  }

  datatype Op =
    | Deliver(event: Event, now: Time)
    | CancelSub(sub: Id)
    | ReactivateSub(sub: Id, at: Time)
    | SelectPlan(sub: Id, plan: Option<Id>, cycle: Cycle, at: Time)
    | NewIntent(intent: Intent)
    | CreateTombstone(sub: Id, anyPlan: Id)

  function Apply(d: Store, op: Op): Store {
    match op
    case Deliver(e, now) => AfterWebhook(d, e, now)
    case CancelSub(s) => AfterCancel(d, s)
    case ReactivateSub(s, at) => AfterReactivate(d, s, at)
    case SelectPlan(s, plan, cycle, at) => AfterSelect(d, s, plan, cycle, at)
    case NewIntent(x) => AddIntent(d, x)
    case CreateTombstone(s, plan) => AfterTombstone(d, s, plan)
  }

  function Run(d: Store, ops: seq<Op>): Store
    decreases |ops|
  {
    if ops == [] then d else Run(Apply(d, ops[0]), ops[1..])
  }

  /** A selection of a known plan for the subscription. */
  predicate Selects(op: Op, s: Id) {
    op.SelectPlan? && op.sub == s && op.plan.Some?
  }

  predicate SelectsNever(ops: seq<Op>, s: Id) {
    forall i :: 0 <= i < |ops| ==> !Selects(ops[i], s)
  }

  // ---- what a delivery does, said of the store before it ----

  /** The subscription an event is about. */
  function SubjectOf(d: Store, e: Event): Option<Id> {
    var i := FindIntent(d.intents, e);
    if i.Some? then (if d.intents[i.value].sub in d.subs then Some(d.intents[i.value].sub) else None)
    else if e.subscriptionId != "" && e.subscriptionId in d.subs then Some(e.subscriptionId) else None
  }

  /** The intent a first delivery charges: a success event for it that reports no other amount. */
  function ChargeOf(d: Store, op: Op): Option<Intent> {
    if op.Deliver? && op.event.id !in d.seen && IsSuccess(op.event.kind) then
      var i := FindIntent(d.intents, op.event);
      if i.Some? && d.intents[i.value].sub in d.subs && !AmountMismatch(d.intents[i.value], op.event)
      then Some(d.intents[i.value]) else None
    else None
  }

  predicate ChargesSub(d: Store, op: Op, s: Id) {
    ChargeOf(d, op).Some? && ChargeOf(d, op).value.sub == s
  }

  /** A first refund of a live or past-due subscription that still has a PAID invoice. */
  predicate RefundsSub(d: Store, op: Op, s: Id) {
    && op.Deliver? && op.event.id !in d.seen && op.event.kind == Refunded && SubjectOf(d, op.event) == Some(s)
    && d.subs[s].status in {Active, PastDue} && LastPaid(d.invoices, s).Some?
  }

  // ---- repeats do nothing ----

  /** The run without deliveries of ids already seen. */
  function FirstOnly(ops: seq<Op>, seen: set<Id>): seq<Op>
    decreases |ops|
  {
    if ops == [] then []
    else if ops[0].Deliver? then
      if ops[0].event.id in seen then FirstOnly(ops[1..], seen)
      else [ops[0]] + FirstOnly(ops[1..], seen + {ops[0].event.id})
    else [ops[0]] + FirstOnly(ops[1..], seen)
  }

  lemma SeenAfter(d: Store, op: Op)
    ensures Apply(d, op).seen == if op.Deliver? && op.event.id !in d.seen then d.seen[op.event.id := op.now] else d.seen
  {
  }

  /** Any run equals the run of first deliveries. */
  lemma {:induction false} RepeatsDoNothing(d: Store, ops: seq<Op>)
    ensures Run(d, ops) == Run(d, FirstOnly(ops, d.seen.Keys))
    decreases |ops|
  {
    if ops != [] {
      var d1 := Apply(d, ops[0]);
      SeenAfter(d, ops[0]);
      RepeatsDoNothing(d1, ops[1..]);
      if ops[0].Deliver? && ops[0].event.id in d.seen {
        assert Apply(d, ops[0]) == d;
      } else {
        assert ops[0].Deliver? ==> d1.seen.Keys == d.seen.Keys + {ops[0].event.id};
        assert ([ops[0]] + FirstOnly(ops[1..], d1.seen.Keys))[1..] == FirstOnly(ops[1..], d1.seen.Keys);
      }
    }
  }

  predicate Once(ops: seq<Op>) {
    forall i, j :: 0 <= i < j < |ops| && ops[i].Deliver? && ops[j].Deliver? ==> ops[i].event.id != ops[j].event.id
  }

  lemma {:induction false} FirstOnlyIsOnce(ops: seq<Op>, seen: set<Id>)
    ensures Once(FirstOnly(ops, seen))
    ensures forall i :: 0 <= i < |FirstOnly(ops, seen)| && FirstOnly(ops, seen)[i].Deliver?
              ==> FirstOnly(ops, seen)[i].event.id !in seen
    decreases |ops|
  {
    if ops != [] {
      FirstOnlyIsOnce(ops[1..], seen);
      if ops[0].Deliver? { FirstOnlyIsOnce(ops[1..], seen + {ops[0].event.id}); }
    }
  }

  // ---- the invoice ledger ----

  datatype Ledger = Ledger(count: nat, amount: int, paid: int)

  function LedgerOf(invoices: seq<Invoice>, s: Id): Ledger {
    if invoices == [] then Ledger(0, 0, 0)
    else
      var rest := LedgerOf(invoices[..|invoices| - 1], s);
      var x := invoices[|invoices| - 1];
      if x.sub != s then rest
      else Ledger(rest.count + 1, rest.amount + x.amount, rest.paid + if x.status == Paid then 1 else 0)
  }

  lemma LedgerAppend(invoices: seq<Invoice>, x: Invoice, s: Id)
    ensures var l := LedgerOf(invoices, s);
            LedgerOf(invoices + [x], s) ==
              if x.sub != s then l else Ledger(l.count + 1, l.amount + x.amount, l.paid + if x.status == Paid then 1 else 0)
  {
    assert (invoices + [x])[..|invoices|] == invoices;
  }

  lemma {:induction false} LedgerVoid(invoices: seq<Invoice>, i: nat, s: Id)
    requires i < |invoices| && invoices[i].status == Paid
    ensures var l := LedgerOf(invoices, s);
            LedgerOf(invoices[i := invoices[i].(status := Void)], s) ==
              if invoices[i].sub == s then l.(paid := l.paid - 1) else l
    decreases |invoices|
  {
    var n := |invoices| - 1;
    var voided := invoices[i := invoices[i].(status := Void)];
    if i == n {
      assert voided[..n] == invoices[..n];
    } else {
      assert voided[..n] == invoices[..n][i := invoices[i].(status := Void)];
      LedgerVoid(invoices[..n], i, s);
    }
  }

  function Books(l: Ledger, charge: Option<int>, refund: bool): Ledger {
    var l1 := if charge.Some? then Ledger(l.count + 1, l.amount + charge.value, l.paid + 1) else l;
    if refund then l1.(paid := l1.paid - 1) else l1
  }

  /** The amount an operation charges to a subscription. */
  function AmountFor(d: Store, op: Op, s: Id): Option<int> {
    if ChargesSub(d, op, s) then Some(ChargeOf(d, op).value.expected) else None
  }

  lemma LifecycleBooks(d: Store, t: Id, e: Event, s: Id)
    requires t in d.subs
    ensures var refund := t == s && e.kind == Refunded && d.subs[t].status in {Active, PastDue} && LastPaid(d.invoices, s).Some?;
            LedgerOf(AfterLifecycle(d, t, e).invoices, s) == Books(LedgerOf(d.invoices, s), None, refund)
  {
    var i := LastPaid(d.invoices, t);
    if i.Some? { LedgerVoid(d.invoices, i.value, s); }
  }

  lemma DeliveryBooks(d: Store, e: Event, now: Time, s: Id)
    requires e.id !in d.seen
    ensures LedgerOf(AfterWebhook(d, e, now).invoices, s)
         == Books(LedgerOf(d.invoices, s), AmountFor(d, Deliver(e, now), s), RefundsSub(d, Deliver(e, now), s))
  {
    var d0 := d.(seen := d.seen[e.id := now]);
    var i := FindIntent(d.intents, e);
    if i.None? {
      if e.subscriptionId != "" && e.subscriptionId in d.subs { LifecycleBooks(d0, e.subscriptionId, e, s); }
    } else if d.intents[i.value].sub in d.subs && !AmountMismatch(d.intents[i.value], e) {
      var x := d.intents[i.value];
      if IsSuccess(e.kind) {
        LedgerAppend(d.invoices, Invoice(x.sub, now, x.expected, Paid), s);
      } else {
        LifecycleBooks(SetIntent(d0, i.value, Failed), x.sub, e, s);
      }
    }
  }

  /** Each operation books exactly its charge and its refund. */
  lemma StepBooks(d: Store, op: Op, s: Id)
    ensures LedgerOf(Apply(d, op).invoices, s)
         == Books(LedgerOf(d.invoices, s), AmountFor(d, op, s), RefundsSub(d, op, s))
  {
    if op.Deliver? && op.event.id !in d.seen {
      DeliveryBooks(d, op.event, op.now, s);
    }
  }

  /** The amounts a run charges to a subscription, in order. */
  function Charges(d: Store, ops: seq<Op>, s: Id): seq<int>
    decreases |ops|
  {
    if ops == [] then []
    else
      var rest := Charges(Apply(d, ops[0]), ops[1..], s);
      if AmountFor(d, ops[0], s).Some? then [AmountFor(d, ops[0], s).value] + rest else rest
  }

  function Refunds(d: Store, ops: seq<Op>, s: Id): nat
    decreases |ops|
  {
    if ops == [] then 0
    else (if RefundsSub(d, ops[0], s) then 1 else 0) + Refunds(Apply(d, ops[0]), ops[1..], s)
  }

  function Sum(xs: seq<int>): int {
    if xs == [] then 0 else xs[0] + Sum(xs[1..])
  }

  /** Conservation: over any run a subscription gains one invoice per accepted success event, for
      the amount its intent expected, and its PAID invoices are those less the effective refunds. */
  lemma {:induction false} LedgerBalances(d: Store, ops: seq<Op>, s: Id)
    ensures var l, l' := LedgerOf(d.invoices, s), LedgerOf(Run(d, ops).invoices, s);
            var charges := Charges(d, ops, s);
            && l'.count == l.count + |charges|
            && l'.amount == l.amount + Sum(charges)
            && l'.paid == l.paid + |charges| - Refunds(d, ops, s)
    decreases |ops|
  {
    if ops != [] {
      StepBooks(d, ops[0], s);
      var d1 := Apply(d, ops[0]);
      LedgerBalances(d1, ops[1..], s);
      var a := AmountFor(d, ops[0], s);
      if a.Some? {
        var rest := Charges(d1, ops[1..], s);
        assert ([a.value] + rest)[1..] == rest;
      }
    }
  }

  // ---- the period end ----

  /** The operation extends the period: a charged renewal, or a charged activation of a
      subscription that is not PENDING. */
  predicate Extends(d: Store, op: Op, s: Id) {
    && ChargesSub(d, op, s) && s in d.subs
    && (ChargeOf(d, op).value.purpose == Renewal
        || (ChargeOf(d, op).value.purpose == Activation && d.subs[s].status != Pending))
  }

  /** The operation starts the period anew: a charged activation of a PENDING subscription. */
  predicate StartsPeriod(d: Store, op: Op, s: Id) {
    ChargesSub(d, op, s) && s in d.subs && ChargeOf(d, op).value.purpose == Activation && d.subs[s].status == Pending
  }

  lemma PeriodStep(d: Store, op: Op, s: Id)
    requires s in d.subs
    ensures var sub := d.subs[s];
            && s in Apply(d, op).subs
            && Apply(d, op).subs[s].cycle == (if Selects(op, s) then op.cycle else sub.cycle)
            && var period := (if sub.cycle == Monthly then 30 else 365) * DAY_MS;
               Apply(d, op).subs[s].periodEnd ==
                 if Extends(d, op, s) then (if op.now < sub.periodEnd then sub.periodEnd else op.now) + period
                 else if StartsPeriod(d, op, s) then op.now + period
                 else sub.periodEnd
  {
  }

  /** Only a plan selection puts a subscription back to PENDING, and it always does. */
  lemma PendingComesFromSelection(d: Store, op: Op, s: Id)
    requires s in d.subs && d.subs[s].status != Pending
    ensures s in Apply(d, op).subs
    ensures Apply(d, op).subs[s].status == Pending <==> Selects(op, s)
  {
  }

  /** A paid period: when it was charged, and for how long. */
  datatype Extension = Extension(at: Time, period: Time)

  /** The paid periods of a run, in order. */
  function Extensions(d: Store, ops: seq<Op>, s: Id): seq<Extension>
    requires s in d.subs
    decreases |ops|
  {
    if ops == [] then []
    else
      PeriodStep(d, ops[0], s);
      var rest := Extensions(Apply(d, ops[0]), ops[1..], s);
      if Extends(d, ops[0], s) then [Extension(ops[0].now, PeriodMs(d.subs[s].cycle))] + rest else rest
  }

  function Stacked(end: Time, paid: seq<Extension>): Time {
    if paid == [] then end
    else
      var last := paid[|paid| - 1];
      Max(Stacked(end, paid[..|paid| - 1]), last.at) + last.period
  }

  function Total(paid: seq<Extension>): Time {
    if paid == [] then 0 else Total(paid[..|paid| - 1]) + paid[|paid| - 1].period
  }

  /** The end if the `j`-th charge came late and the others stack on it. */
  function EndFrom(paid: seq<Extension>, j: nat): Time
    requires j < |paid|
  {
    paid[j].at + Total(paid[j..])
  }

  /** `r` is max(end + all periods, max over j of the j-th charge's time + the periods from it on). */
  ghost predicate IsLargest(r: Time, end: Time, paid: seq<Extension>) {
    && r >= end + Total(paid)
    && (forall j :: 0 <= j < |paid| ==> r >= EndFrom(paid, j))
    && (r == end + Total(paid) || exists j :: 0 <= j < |paid| && r == EndFrom(paid, j))
  }

  lemma EndFromSnoc(paid: seq<Extension>, last: Extension, j: nat)
    requires j <= |paid|
    ensures EndFrom(paid + [last], j) == last.period + if j < |paid| then EndFrom(paid, j) else last.at
  {
    var all := (paid + [last])[j..];
    assert all[|all| - 1] == last && all[..|all| - 1] == paid[j..];
    assert Total(all) == Total(paid[j..]) + last.period;
    if j == |paid| { assert paid[j..] == []; }
  }

  lemma LargestSnoc(r: Time, end: Time, paid: seq<Extension>, last: Extension)
    requires IsLargest(r, end, paid)
    ensures IsLargest(Max(r, last.at) + last.period, end, paid + [last])
  {
    var all, r1 := paid + [last], Max(r, last.at) + last.period;
    assert all[..|paid|] == paid;
    EndFromSnoc(paid, last, |paid|);
    forall j | 0 <= j < |paid| ensures EndFrom(all, j) == last.period + EndFrom(paid, j) {
      EndFromSnoc(paid, last, j);
    }
    if r < last.at {
      assert r1 == EndFrom(all, |paid|);
    } else if r != end + Total(paid) {
      var j :| 0 <= j < |paid| && r == EndFrom(paid, j);
      assert r1 == EndFrom(all, j);
    }
  }

  lemma {:induction false} StackedIsLargest(end: Time, paid: seq<Extension>)
    ensures IsLargest(Stacked(end, paid), end, paid)
    decreases |paid|
  {
    if paid != [] {
      var n := |paid| - 1;
      StackedIsLargest(end, paid[..n]);
      LargestSnoc(Stacked(end, paid[..n]), end, paid[..n], paid[n]);
      assert paid[..n] + [paid[n]] == paid;
    }
  }

  /** What a period end is made of: where it was last set anew, and the periods paid since. */
  datatype Account = Account(base: Time, paid: seq<Extension>)

  function Booked(a: Account, d: Store, op: Op, s: Id): Account
    requires s in d.subs
  {
    var period := PeriodMs(d.subs[s].cycle);
    if StartsPeriod(d, op, s) then Account(op.now + period, [])
    else if Extends(d, op, s) then a.(paid := a.paid + [Extension(op.now, period)])
    else a
  }

  function BookedRun(a: Account, d: Store, ops: seq<Op>, s: Id): Account
    requires s in d.subs
    decreases |ops|
  {
    if ops == [] then a
    else
      PeriodStep(d, ops[0], s);
      BookedRun(Booked(a, d, ops[0], s), Apply(d, ops[0]), ops[1..], s)
  }

  function AccountOf(d: Store, ops: seq<Op>, s: Id): Account
    requires s in d.subs
  {
    BookedRun(Account(d.subs[s].periodEnd, []), d, ops, s)
  }

  lemma {:induction false} PeriodsStack(a: Account, d: Store, ops: seq<Op>, s: Id)
    requires s in d.subs && d.subs[s].periodEnd == Stacked(a.base, a.paid)
    ensures s in Run(d, ops).subs
    ensures Run(d, ops).subs[s].periodEnd == Stacked(BookedRun(a, d, ops, s).base, BookedRun(a, d, ops, s).paid)
    decreases |ops|
  {
    if ops != [] {
      PeriodStep(d, ops[0], s);
      var a1 := Booked(a, d, ops[0], s);
      if Extends(d, ops[0], s) && !StartsPeriod(d, ops[0], s) { assert a1.paid[..|a1.paid| - 1] == a.paid; }
      PeriodsStack(a1, Apply(d, ops[0]), ops[1..], s);
    }
  }

  /** No activation of the run finds the subscription PENDING. */
  predicate NoReset(d: Store, ops: seq<Op>, s: Id)
    decreases |ops|
  {
    ops == [] || (!StartsPeriod(d, ops[0], s) && NoReset(Apply(d, ops[0]), ops[1..], s))
  }

  lemma {:induction false} BookedWithoutReset(a: Account, d: Store, ops: seq<Op>, s: Id)
    requires s in d.subs && NoReset(d, ops, s)
    ensures BookedRun(a, d, ops, s) == Account(a.base, a.paid + Extensions(d, ops, s))
    decreases |ops|
  {
    if ops == [] {
      assert a.paid + [] == a.paid;
    } else {
      PeriodStep(d, ops[0], s);
      var d1, a1 := Apply(d, ops[0]), Booked(a, d, ops[0], s);
      BookedWithoutReset(a1, d1, ops[1..], s);
      var rest := Extensions(d1, ops[1..], s);
      if Extends(d, ops[0], s) {
        var x := Extension(ops[0].now, PeriodMs(d.subs[s].cycle));
        assert a.paid + [x] + rest == a.paid + ([x] + rest);
      }
    }
  }

  /** After any run, whatever else it did, the period end is the closed form over its account: the
      base, and the paid periods since the base was set, each of its own length. Without a reset the
      base is the old end and every paid period of the run counts. */
  lemma PeriodEndClosedForm(d: Store, ops: seq<Op>, s: Id)
    requires s in d.subs
    ensures var a := AccountOf(d, ops, s);
            && s in Run(d, ops).subs && IsLargest(Run(d, ops).subs[s].periodEnd, a.base, a.paid)
            && (NoReset(d, ops, s) ==> a == Account(d.subs[s].periodEnd, Extensions(d, ops, s)))
  {
    var a0, a := Account(d.subs[s].periodEnd, []), AccountOf(d, ops, s);
    PeriodsStack(a0, d, ops, s);
    StackedIsLargest(a.base, a.paid);
    if NoReset(d, ops, s) { BookedWithoutReset(a0, d, ops, s); }
  }

  lemma {:induction false} SubsStay(d: Store, ops: seq<Op>, s: Id)
    requires s in d.subs
    ensures s in Run(d, ops).subs
    decreases |ops|
  {
    if ops != [] {
      PeriodStep(d, ops[0], s);
      SubsStay(Apply(d, ops[0]), ops[1..], s);
    }
  }

  lemma {:induction false} BookedRunSplit(a: Account, d: Store, ops: seq<Op>, s: Id, i: nat)
    requires s in d.subs && i <= |ops|
    ensures s in Run(d, ops[..i]).subs
    ensures BookedRun(a, d, ops, s) == BookedRun(BookedRun(a, d, ops[..i], s), Run(d, ops[..i]), ops[i..], s)
    decreases |ops|
  {
    SubsStay(d, ops[..i], s);
    if i == 0 {
      assert ops[..0] == [] && ops[0..] == ops;
    } else {
      PeriodStep(d, ops[0], s);
      assert ops[..i][1..] == ops[1..][..i - 1] && ops[1..][i - 1..] == ops[i..];
      BookedRunSplit(Booked(a, d, ops[0], s), Apply(d, ops[0]), ops[1..], s, i - 1);
    }
  }

  /** With a reset the account starts a period after the last one and holds the periods paid after
      that. */
  lemma LastResetIsTheBase(d: Store, ops: seq<Op>, s: Id, i: nat)
    requires s in d.subs && i < |ops|
    requires var before := Run(d, ops[..i]);
             StartsPeriod(before, ops[i], s) && NoReset(Apply(before, ops[i]), ops[i + 1..], s)
    ensures var before := Run(d, ops[..i]);
            var after := Apply(before, ops[i]);
            && s in before.subs && s in after.subs
            && AccountOf(d, ops, s) ==
                 Account(ops[i].now + PeriodMs(before.subs[s].cycle), Extensions(after, ops[i + 1..], s))
  {
    var before := Run(d, ops[..i]);
    BookedRunSplit(Account(d.subs[s].periodEnd, []), d, ops, s, i);
    PeriodStep(before, ops[i], s);
    assert ops[i..][1..] == ops[i + 1..];
    BookedWithoutReset(Account(ops[i].now + PeriodMs(before.subs[s].cycle), []), Apply(before, ops[i]), ops[i + 1..], s);
  }

  /** Outside PENDING there is no reset until someone selects a plan. */
  lemma {:induction false} NoResetWithoutSelection(d: Store, ops: seq<Op>, s: Id)
    requires s in d.subs && d.subs[s].status != Pending && SelectsNever(ops, s)
    ensures NoReset(d, ops, s)
    decreases |ops|
  {
    if ops != [] {
      PendingComesFromSelection(d, ops[0], s);
      NoResetWithoutSelection(Apply(d, ops[0]), ops[1..], s);
    }
  }

  /** Then no paid period is lost: the end is at least the old one and every period paid since. */
  lemma NoPaidPeriodIsLost(d: Store, ops: seq<Op>, s: Id)
    requires s in d.subs && NoReset(d, ops, s)
    ensures s in Run(d, ops).subs
    ensures Run(d, ops).subs[s].periodEnd >= d.subs[s].periodEnd + Total(Extensions(d, ops, s))
  {
    PeriodEndClosedForm(d, ops, s);
  }

  /** An activation finds the subscription PENDING with more than one period left. */
  predicate CutsShort(d: Store, op: Op, s: Id) {
    StartsPeriod(d, op, s) && op.now + PeriodMs(d.subs[s].cycle) < d.subs[s].periodEnd
  }

  /** Only an activation from PENDING can move the end back, and it does exactly when the old end
      was further than one period away. */
  lemma EndMovesBackIff(d: Store, op: Op, s: Id)
    requires s in d.subs
    ensures s in Apply(d, op).subs
    ensures Apply(d, op).subs[s].periodEnd < d.subs[s].periodEnd <==> CutsShort(d, op, s)
  {
    PeriodStep(d, op, s);
  }

  predicate EndNeverMovesBack(d: Store, ops: seq<Op>, s: Id)
    decreases |ops|
  {
    ops == []
    || var d1 := Apply(d, ops[0]);
       && (s in d.subs && s in d1.subs ==> d.subs[s].periodEnd <= d1.subs[s].periodEnd)
       && EndNeverMovesBack(d1, ops[1..], s)
  }

  predicate NothingCutsShort(d: Store, ops: seq<Op>, s: Id)
    decreases |ops|
  {
    ops == [] || (!CutsShort(d, ops[0], s) && NothingCutsShort(Apply(d, ops[0]), ops[1..], s))
  }

  /** Over any run: the end never moves back exactly when no activation finds the subscription
      PENDING with more than one period left. */
  lemma {:induction false} EndNeverMovesBackIff(d: Store, ops: seq<Op>, s: Id)
    requires s in d.subs
    ensures EndNeverMovesBack(d, ops, s) <==> NothingCutsShort(d, ops, s)
    decreases |ops|
  {
    if ops != [] {
      EndMovesBackIff(d, ops[0], s);
      EndNeverMovesBackIff(Apply(d, ops[0]), ops[1..], s);
    }
  }

  lemma RunOfThree(d: Store, a: Op, b: Op, c: Op)
    ensures Run(d, [a, b, c]) == Apply(Apply(Apply(d, a), b), c)
  {
    assert [a, b, c][1..] == [b, c] && [b, c][1..] == [c] && [c][1..] == [];
    assert Run(d, [a, b, c]) == Run(Apply(d, a), [b, c]) == Run(Apply(Apply(d, a), b), [c]);
    assert Run(Apply(Apply(d, a), b), [c]) == Run(Apply(Apply(Apply(d, a), b), c), []);
  }

  lemma NewestIntentIsFound(intents: seq<Intent>, x: Intent, e: Event)
    requires e.intentId == x.id != "" && forall j :: 0 <= j < |intents| ==> intents[j].id != x.id
    ensures FindIntent(intents + [x], e) == Some(|intents|)
  {
    var i := FindIntent(intents + [x], e);
    assert Matches((intents + [x])[|intents|], e);
    assert forall j :: 0 <= j < |intents| ==> !Matches((intents + [x])[j], e);
  }

  /** Selecting a plan and paying its activation drops what was left of the paid period, whatever
      the status was: a yearly subscription 300 days before its end that selects a monthly plan
      keeps 30 of them. */
  lemma SelectionDropsPaidTime(d: Store, s: Id, plan: Id, cycle: Cycle, x: Intent, e: Event, now: Time)
    requires s in d.subs && x.sub == s && x.purpose == Activation
    requires e.id !in d.seen && e.kind == PaymentSucceeded && e.amount.None? && e.intentId == x.id != ""
    requires forall j :: 0 <= j < |d.intents| ==> d.intents[j].id != x.id
    ensures var d' := Run(d, [SelectPlan(s, Some(plan), cycle, now), NewIntent(x), Deliver(e, now)]);
            && s in d'.subs && d'.subs[s].status == Active
            && d'.subs[s].periodEnd == now + PeriodMs(cycle)
            && (cycle == Monthly && d.subs[s].cycle == Yearly && d.subs[s].periodEnd == now + 300 * DAY_MS ==>
                  d.subs[s].periodEnd - d'.subs[s].periodEnd == 270 * DAY_MS)
  {
    var created := x.(status := Created);
    RunOfThree(d, SelectPlan(s, Some(plan), cycle, now), NewIntent(x), Deliver(e, now));
    NewestIntentIsFound(d.intents, created, e);
    var d2 := Apply(Apply(d, SelectPlan(s, Some(plan), cycle, now)), NewIntent(x));
    assert d2.intents == d.intents + [created] && d2.subs[s].status == Pending && d2.subs[s].cycle == cycle;
    assert StartsPeriod(d2, Deliver(e, now), s);
    PeriodStep(d2, Deliver(e, now), s);
  }

  // ---- what a subscription is entitled to ----

  /** The plan a charged upgrade buys. */
  function PlanBought(d: Store, op: Op, s: Id): Option<Id> {
    if ChargesSub(d, op, s) && ChargeOf(d, op).value.purpose == Upgrade then ChargeOf(d, op).value.targetPlan else None
  }

  /** The plan an operation puts the subscription on: bought or selected. */
  function PlanTaken(d: Store, op: Op, s: Id): Option<Id> {
    if Selects(op, s) then op.plan else PlanBought(d, op, s)
  }

  function PlansTaken(d: Store, ops: seq<Op>, s: Id): seq<Id>
    decreases |ops|
  {
    if ops == [] then []
    else
      var rest := PlansTaken(Apply(d, ops[0]), ops[1..], s);
      if PlanTaken(d, ops[0], s).Some? then [PlanTaken(d, ops[0], s).value] + rest else rest
  }

  /** How many overflow slots a run's charges grant. */
  function SlotsBought(d: Store, ops: seq<Op>, s: Id): nat
    decreases |ops|
  {
    if ops == [] then 0
    else (if ChargesSub(d, ops[0], s) && ChargeOf(d, ops[0]).value.purpose == Overflow then 1 else 0)
         + SlotsBought(Apply(d, ops[0]), ops[1..], s)
  }

  lemma EntitlementStep(d: Store, op: Op, s: Id)
    requires s in d.subs
    ensures var sub := d.subs[s];
            && s in Apply(d, op).subs
            && Apply(d, op).subs[s].slotsUsed ==
                 sub.slotsUsed + (if ChargesSub(d, op, s) && ChargeOf(d, op).value.purpose == Overflow then 1 else 0)
            && Apply(d, op).subs[s].planId == if PlanTaken(d, op, s).Some? then PlanTaken(d, op, s).value else sub.planId
  {
  }

  function LastId(first: Id, rest: seq<Id>): Id {
    if rest == [] then first else rest[|rest| - 1]
  }

  /** Slots are what was paid for, one per charged overflow intent; the plan is that of the last
      charged upgrade or selection. */
  lemma {:induction false} EntitlementsHaveCauses(d: Store, ops: seq<Op>, s: Id)
    requires s in d.subs
    ensures s in Run(d, ops).subs
    ensures Run(d, ops).subs[s].slotsUsed == d.subs[s].slotsUsed + SlotsBought(d, ops, s)
    ensures Run(d, ops).subs[s].planId == LastId(d.subs[s].planId, PlansTaken(d, ops, s))
    decreases |ops|
  {
    if ops != [] {
      EntitlementStep(d, ops[0], s);
      EntitlementsHaveCauses(Apply(d, ops[0]), ops[1..], s);
    }
  }

  /** After every step the plan is `paid`, or what the last charged upgrade made of it. */
  predicate PlanPaidThroughout(d: Store, ops: seq<Op>, s: Id, paid: Id)
    decreases |ops|
  {
    && s in d.subs && d.subs[s].planId == paid
    && (ops == []
        || var bought := PlanBought(d, ops[0], s);
           PlanPaidThroughout(Apply(d, ops[0]), ops[1..], s, if bought.Some? then bought.value else paid))
  }

  /** No selection of the run names another plan than the one the subscription is on. */
  predicate NoPlanSwitched(d: Store, ops: seq<Op>, s: Id)
    decreases |ops|
  {
    ops == []
    || (!(Selects(ops[0], s) && s in d.subs && ops[0].plan != Some(d.subs[s].planId))
        && NoPlanSwitched(Apply(d, ops[0]), ops[1..], s))
  }

  /** The plan is paid for throughout a run exactly when no selection changes it. */
  lemma {:induction false} PlanPaidThroughoutIff(d: Store, ops: seq<Op>, s: Id)
    requires s in d.subs
    ensures PlanPaidThroughout(d, ops, s, d.subs[s].planId) <==> NoPlanSwitched(d, ops, s)
    decreases |ops|
  {
    if ops != [] {
      var d1 := Apply(d, ops[0]);
      EntitlementStep(d, ops[0], s);
      if d1.subs[s].planId == (if PlanBought(d, ops[0], s).Some? then PlanBought(d, ops[0], s).value else d.subs[s].planId) {
        PlanPaidThroughoutIff(d1, ops[1..], s);
      }
    }
  }

  /** A first delivery of a failure, dispute or refund about the subscription. */
  predicate VerifiedSetback(d: Store, op: Op, s: Id) {
    op.Deliver? && op.event.id !in d.seen && !IsSuccess(op.event.kind) && SubjectOf(d, op.event) == Some(s)
  }

  // ---- access needs a payment, unless PENDING is canceled first ----

  /** The operation delivers a first success event about the subscription that changes it. */
  predicate VerifiedSuccess(d: Store, op: Op, s: Id) {
    && op.Deliver? && op.event.id !in d.seen && IsSuccess(op.event.kind) && SubjectOf(d, op.event) == Some(s)
    && (FindIntent(d.intents, op.event).Some? ==> ChargesSub(d, op, s))
  }

  ghost predicate NoSuccess(d: Store, ops: seq<Op>, s: Id)
    decreases |ops|
  {
    ops == [] || (!VerifiedSuccess(d, ops[0], s) && NoSuccess(Apply(d, ops[0]), ops[1..], s))
  }

  lemma StatusAfterDelivery(d: Store, e: Event, now: Time, s: Id)
    requires s in d.subs && e.id !in d.seen
    ensures s in AfterWebhook(d, e, now).subs
    ensures var from, to := d.subs[s].status, AfterWebhook(d, e, now).subs[s].status;
            from != to ==>
              && SubjectOf(d, e) == Some(s)
              && (to == Active <==> VerifiedSuccess(d, Deliver(e, now), s))
              && (to == PastDue <==> from == Active && !IsSuccess(e.kind))
              && (to == Active || to == PastDue)
  {
  }

  /** Every change of status has its cause: CANCELED comes from `cancel`, PAST_DUE only from a
      setback while ACTIVE, ACTIVE only from a verified success or a reactivation, and PENDING from a
      plan selection. */
  lemma StatusChangesHaveCauses(d: Store, op: Op, s: Id)
    requires s in d.subs
    ensures s in Apply(d, op).subs
    ensures var from, to := d.subs[s].status, Apply(d, op).subs[s].status;
            from != to ==>
              && (to == Pending <==> Selects(op, s))
              && (to == Canceled <==> op == CancelSub(s))
              && (to == PastDue ==> from == Active && VerifiedSetback(d, op, s))
              && (to == Active ==> VerifiedSuccess(d, op, s) || (from == Canceled && op.ReactivateSub? && op.sub == s))
  {
    if op.Deliver? && op.event.id !in d.seen {
      StatusAfterDelivery(d, op.event, op.now, s);
    }
  }

  lemma UnpaidStep(d: Store, op: Op, s: Id)
    requires s in d.subs && d.subs[s].status == Pending && !VerifiedSuccess(d, op, s)
    ensures s in Apply(d, op).subs
    ensures Apply(d, op).subs[s].status == if op == CancelSub(s) then Canceled else Pending
  {
  }

  lemma OutOfPendingStep(d: Store, op: Op, s: Id)
    requires s in d.subs && !VerifiedSuccess(d, op, s)
    ensures s in Apply(d, op).subs
    ensures Apply(d, op).subs[s].status != Pending <==>
              op == CancelSub(s) || (d.subs[s].status != Pending && !Selects(op, s))
  {
    if d.subs[s].status == Pending { UnpaidStep(d, op, s); } else { PendingComesFromSelection(d, op, s); }
  }

  /** A cancellation with no selection after it. */
  ghost predicate CanceledForGood(ops: seq<Op>, s: Id) {
    exists i :: 0 <= i < |ops| && ops[i] == CancelSub(s) && SelectsNever(ops[i + 1..], s)
  }

  lemma CanceledForGoodUnfolds(ops: seq<Op>, s: Id)
    requires ops != []
    ensures CanceledForGood(ops, s) <==>
              (ops[0] == CancelSub(s) && SelectsNever(ops[1..], s)) || CanceledForGood(ops[1..], s)
  {
    var rest := ops[1..];
    if CanceledForGood(ops, s) {
      var i :| 0 <= i < |ops| && ops[i] == CancelSub(s) && SelectsNever(ops[i + 1..], s);
      if i > 0 { assert rest[i - 1] == CancelSub(s) && rest[i - 1 + 1..] == ops[i + 1..]; }
    }
    if CanceledForGood(rest, s) {
      var i :| 0 <= i < |rest| && rest[i] == CancelSub(s) && SelectsNever(rest[i + 1..], s);
      assert ops[i + 1] == CancelSub(s) && ops[i + 1 + 1..] == rest[i + 1..];
    }
  }

  lemma SelectsNeverUnfolds(ops: seq<Op>, s: Id)
    requires ops != []
    ensures SelectsNever(ops, s) <==> !Selects(ops[0], s) && SelectsNever(ops[1..], s)
  {
    assert forall i :: 0 < i < |ops| ==> ops[i] == ops[1..][i - 1];
  }

  /** Without a verified success a run ends outside PENDING exactly when someone canceled with no
      plan selected after, or it started outside and no plan was selected at all. */
  lemma {:induction false} OutsidePendingUnpaidIff(d: Store, ops: seq<Op>, s: Id)
    requires s in d.subs && NoSuccess(d, ops, s)
    ensures s in Run(d, ops).subs
    ensures Run(d, ops).subs[s].status != Pending <==>
              CanceledForGood(ops, s) || (d.subs[s].status != Pending && SelectsNever(ops, s))
    decreases |ops|
  {
    if ops != [] {
      OutOfPendingStep(d, ops[0], s);
      OutsidePendingUnpaidIff(Apply(d, ops[0]), ops[1..], s);
      CanceledForGoodUnfolds(ops, s);
      SelectsNeverUnfolds(ops, s);
    }
  }

  predicate ActiveAfter(d: Store, ops: seq<Op>, s: Id) {
    s in Run(d, ops).subs && Run(d, ops).subs[s].status == Active
  }

  /** The subscription is ACTIVE after some prefix of the run. */
  ghost predicate EverActive(d: Store, ops: seq<Op>, s: Id) {
    exists n :: 0 <= n <= |ops| && ActiveAfter(d, ops[..n], s)
  }

  lemma RunPrefix(d: Store, ops: seq<Op>, n: nat)
    requires 0 < n <= |ops|
    ensures Run(d, ops[..n]) == Run(Apply(d, ops[0]), ops[1..][..n - 1])
  {
    assert ops[..n][1..] == ops[1..][..n - 1];
  }

  lemma EverActiveUnfolds(d: Store, ops: seq<Op>, s: Id)
    requires ops != []
    ensures EverActive(d, ops, s) <==> ActiveAfter(d, [], s) || EverActive(Apply(d, ops[0]), ops[1..], s)
  {
    assert ops[..0] == [];
    if EverActive(d, ops, s) {
      var n :| 0 <= n <= |ops| && ActiveAfter(d, ops[..n], s);
      if n > 0 {
        RunPrefix(d, ops, n);
        assert ActiveAfter(Apply(d, ops[0]), ops[1..][..n - 1], s);
      }
    }
    if EverActive(Apply(d, ops[0]), ops[1..], s) {
      var n :| 0 <= n <= |ops[1..]| && ActiveAfter(Apply(d, ops[0]), ops[1..][..n], s);
      RunPrefix(d, ops, n + 1);
      assert ActiveAfter(d, ops[..n + 1], s);
    }
  }

  /** A reactivation before the period ends. */
  predicate InTime(op: Op, s: Id, end: Time) {
    op.ReactivateSub? && op.sub == s && op.at < end
  }

  /** Canceled with the period's end as its date. */
  predicate CanceledAt(d: Store, s: Id, end: Time) {
    s in d.subs && d.subs[s].status == Canceled && d.subs[s].periodEnd == end && d.subs[s].canceledEffectiveAt == Some(end)
  }

  lemma UnpaidKeepsEnd(d: Store, op: Op, s: Id)
    requires s in d.subs && !VerifiedSuccess(d, op, s)
    ensures s in Apply(d, op).subs && Apply(d, op).subs[s].periodEnd == d.subs[s].periodEnd
  {
    PeriodStep(d, op, s);
  }

  /** Only `cancel` cancels, and until then the dates stay. */
  lemma CanceledComesFromCancel(d: Store, op: Op, s: Id)
    requires s in d.subs && s in Apply(d, op).subs && Apply(d, op).subs[s].status == Canceled
    ensures op == CancelSub(s) ==> Apply(d, op).subs[s].canceledEffectiveAt == Some(d.subs[s].periodEnd)
    ensures op != CancelSub(s) ==>
      d.subs[s].status == Canceled && Apply(d, op).subs[s].canceledEffectiveAt == d.subs[s].canceledEffectiveAt
  {
  }

  lemma CanceledStep(d: Store, op: Op, s: Id, end: Time)
    requires CanceledAt(d, s, end) && !VerifiedSuccess(d, op, s)
    ensures s in Apply(d, op).subs
    ensures if InTime(op, s, end) then Apply(d, op).subs[s].status == Active
            else if Selects(op, s) then Apply(d, op).subs[s].status == Pending
            else CanceledAt(Apply(d, op), s, end)
  {
    UnpaidKeepsEnd(d, op, s);
    if op.Deliver? && op.event.id !in d.seen { StatusAfterDelivery(d, op.event, op.now, s); }
    if op != CancelSub(s) && s in Apply(d, op).subs && Apply(d, op).subs[s].status == Canceled {
      CanceledComesFromCancel(d, op, s);
    }
  }

  /** A reactivation in time, with no plan selected before it. */
  ghost predicate Reopened(ops: seq<Op>, s: Id, end: Time) {
    exists j :: 0 <= j < |ops| && InTime(ops[j], s, end) && SelectsNever(ops[..j], s)
  }

  lemma ReopenedUnfolds(ops: seq<Op>, s: Id, end: Time)
    requires ops != []
    ensures Reopened(ops, s, end) <==> InTime(ops[0], s, end) || (!Selects(ops[0], s) && Reopened(ops[1..], s, end))
  {
    var rest := ops[1..];
    assert ops[..0] == [];
    if Reopened(ops, s, end) && !InTime(ops[0], s, end) {
      var j :| 0 <= j < |ops| && InTime(ops[j], s, end) && SelectsNever(ops[..j], s);
      SelectsNeverUnfolds(ops[..j], s);
      assert ops[..j][1..] == rest[..j - 1] && InTime(rest[j - 1], s, end);
    }
    if !Selects(ops[0], s) && Reopened(rest, s, end) {
      var j :| 0 <= j < |rest| && InTime(rest[j], s, end) && SelectsNever(rest[..j], s);
      SelectsNeverUnfolds(ops[..j + 1], s);
      assert ops[..j + 1][1..] == rest[..j] && InTime(ops[j + 1], s, end);
    }
  }

  /** A cancellation, and later a reactivation in time with no plan selected between the two. */
  ghost predicate CanceledThenReopened(ops: seq<Op>, s: Id, end: Time) {
    exists i :: 0 <= i < |ops| && ops[i] == CancelSub(s) && Reopened(ops[i + 1..], s, end)
  }

  lemma CanceledThenReopenedUnfolds(ops: seq<Op>, s: Id, end: Time)
    requires ops != []
    ensures CanceledThenReopened(ops, s, end) <==>
              (ops[0] == CancelSub(s) && Reopened(ops[1..], s, end)) || CanceledThenReopened(ops[1..], s, end)
  {
    var rest := ops[1..];
    if CanceledThenReopened(ops, s, end) {
      var i :| 0 <= i < |ops| && ops[i] == CancelSub(s) && Reopened(ops[i + 1..], s, end);
      if i > 0 { assert rest[i - 1] == CancelSub(s) && rest[i - 1 + 1..] == ops[i + 1..]; }
    }
    if CanceledThenReopened(rest, s, end) {
      var i :| 0 <= i < |rest| && rest[i] == CancelSub(s) && Reopened(rest[i + 1..], s, end);
      assert ops[i + 1] == CancelSub(s) && ops[i + 1 + 1..] == rest[i + 1..];
    }
  }

  /** From PENDING, or CANCELED with the period's end as date. */
  lemma {:induction false} ClosedBecomesActiveIff(d: Store, ops: seq<Op>, s: Id, end: Time)
    requires s in d.subs && d.subs[s].periodEnd == end && (d.subs[s].status == Pending || CanceledAt(d, s, end))
    requires NoSuccess(d, ops, s)
    ensures EverActive(d, ops, s) <==>
              (d.subs[s].status == Canceled && Reopened(ops, s, end)) || CanceledThenReopened(ops, s, end)
    decreases |ops|
  {
    if ops != [] {
      var d1 := Apply(d, ops[0]);
      UnpaidKeepsEnd(d, ops[0], s);
      EverActiveUnfolds(d, ops, s);
      ReopenedUnfolds(ops, s, end);
      CanceledThenReopenedUnfolds(ops, s, end);
      if d.subs[s].status == Pending { UnpaidStep(d, ops[0], s); } else { CanceledStep(d, ops[0], s, end); }
      if d1.subs[s].status == Active {
        assert ops[1..][..0] == [] && ActiveAfter(d1, ops[1..][..0], s);
      } else {
        ClosedBecomesActiveIff(d1, ops[1..], s, end);
      }
    }
  }

  /** Without a verified success a PENDING subscription is ACTIVE at some point of a run exactly
      when someone cancels it and reactivates it later, before its period ends, with no plan
      selected in between. */
  lemma ActiveUnpaidIffReopened(d: Store, ops: seq<Op>, s: Id)
    requires s in d.subs && d.subs[s].status == Pending && NoSuccess(d, ops, s)
    ensures EverActive(d, ops, s) <==> CanceledThenReopened(ops, s, d.subs[s].periodEnd)
  {
    ClosedBecomesActiveIff(d, ops, s, d.subs[s].periodEnd);
  }

  lemma {:induction false} NoSuccessNoPlanBought(d: Store, ops: seq<Op>, s: Id)
    requires s in d.subs && NoSuccess(d, ops, s) && SelectsNever(ops, s)
    ensures s in Run(d, ops).subs && Run(d, ops).subs[s].planId == d.subs[s].planId
    decreases |ops|
  {
    if ops != [] {
      EntitlementStep(d, ops[0], s);
      assert PlanBought(d, ops[0], s) == None;
      SelectsNeverUnfolds(ops, s);
      NoSuccessNoPlanBought(Apply(d, ops[0]), ops[1..], s);
    }
  }

  /** A plan selected from any status and never paid is nonetheless the plan of an ACTIVE
      subscription at some later point exactly under the same condition. */
  lemma SelectedPlanActiveUnpaidIff(d: Store, s: Id, plan: Id, cycle: Cycle, at: Time, ops: seq<Op>)
    requires s in d.subs && SelectsNever(ops, s)
    requires NoSuccess(AfterSelect(d, s, Some(plan), cycle, at), ops, s)
    ensures var d1 := AfterSelect(d, s, Some(plan), cycle, at);
            && (EverActive(d1, ops, s) <==> CanceledThenReopened(ops, s, d.subs[s].periodEnd))
            && s in Run(d1, ops).subs && Run(d1, ops).subs[s].planId == plan
  {
    var d1 := AfterSelect(d, s, Some(plan), cycle, at);
    ActiveUnpaidIffReopened(d1, ops, s);
    NoSuccessNoPlanBought(d1, ops, s);
  }

  /** The shortest such run: select, cancel, reactivate. */
  lemma UnpaidPlan(d: Store, s: Id, plan: Id, cycle: Cycle, at: Time)
    requires s in d.subs
    ensures var d' := Run(d, [SelectPlan(s, Some(plan), cycle, at), CancelSub(s), ReactivateSub(s, at)]);
            && s in d'.subs && d'.subs[s].planId == plan && d'.invoices == d.invoices
            && (d'.subs[s].status == Active <==> d.subs[s].periodEnd > at)
  {
    RunOfThree(d, SelectPlan(s, Some(plan), cycle, at), CancelSub(s), ReactivateSub(s, at));
  }

  /** Canceling and reactivating turns any subscription ACTIVE, paid or not, exactly when its
      period has not ended. */
  lemma CancelThenReactivate(d: Store, s: Id, at: Time)
    requires s in d.subs
    ensures var d' := Run(d, [CancelSub(s), ReactivateSub(s, at)]);
            && s in d'.subs && d'.invoices == d.invoices
            && (d'.subs[s].status == Active <==> d.subs[s].periodEnd > at)
  {
    var ops := [CancelSub(s), ReactivateSub(s, at)];
    assert ops[1..] == [ReactivateSub(s, at)] && ops[1..][1..] == [];
    assert Run(d, ops) == Run(AfterCancel(d, s), ops[1..]) == Run(AfterReactivate(AfterCancel(d, s), s, at), []);
  }

  // ---- every cause has its effect ----

  /** A first success event charges the intent it resolves to, unless it reports another amount. */
  lemma ChargesIff(d: Store, op: Op, s: Id)
    ensures ChargesSub(d, op, s) <==>
              && op.Deliver? && op.event.id !in d.seen && op.event.kind in {PaymentSucceeded, RenewalSucceeded} && s in d.subs
              && exists i :: 0 <= i < |d.intents| && FindIntent(d.intents, op.event) == Some(i) && d.intents[i].sub == s
                             && (op.event.amount == None || op.event.amount == Some(d.intents[i].expected))
    ensures ChargesSub(d, op, s) ==> ChargeOf(d, op).value in d.intents
  {
    if op.Deliver? && FindIntent(d.intents, op.event).Some? {
      var i := FindIntent(d.intents, op.event).value;
      assert 0 <= i < |d.intents| && FindIntent(d.intents, op.event) == Some(i);
      assert IsSuccess(op.event.kind) <==> op.event.kind in {PaymentSucceeded, RenewalSucceeded};
      assert IsSuccess(op.event.kind) ==>
          (AmountMismatch(d.intents[i], op.event) <==> op.event.amount != None && op.event.amount != Some(d.intents[i].expected));
    }
  }

  /** The intent an event resolves to: the first with the id it names, or, if it names none, the
      first with its provider reference. */
  lemma IntentIsNamedFirst(intents: seq<Intent>, e: Event, i: nat)
    ensures FindIntent(intents, e) == Some(i) <==>
              && i < |intents|
              && (if e.intentId == "" then intents[i].providerRef == e.providerRef else intents[i].id == e.intentId)
              && forall j :: 0 <= j < i ==>
                   if e.intentId == "" then intents[j].providerRef != e.providerRef else intents[j].id != e.intentId
  {
    if i < |intents| && Matches(intents[i], e) {
      assert FindIntent(intents, e).Some? && FindIntent(intents, e).value <= i;
    }
  }

  /** The subscription an event is about: its intent's, or the one it names if it has no intent. */
  lemma SubjectIs(d: Store, e: Event, s: Id)
    ensures SubjectOf(d, e) == Some(s) <==>
              && s in d.subs
              && match FindIntent(d.intents, e)
                 case Some(i) => d.intents[i].sub == s
                 case None => e.subscriptionId == s && s != ""
  {
  }

  /** The status after a first delivery about a subscription, from the event and the status before:
      a charge ends ACTIVE unless it only buys a slot or names no plan; an event without intent and
      a setback follow the transition table. */
  function StatusAfterEvent(was: Status, kind: EventType, purpose: Option<Purpose>, names: bool): Status {
    if purpose.Some? && kind in {PaymentSucceeded, RenewalSucceeded} then
      (match purpose.value
       case Overflow => was
       case Upgrade => if names then Active else was
       case _ => Active)
    else
      match kind
      case PaymentSucceeded => if was == Canceled then Canceled else Active
      case RenewalSucceeded => if was == PastDue then Active else was
      case _ => if was == Active then PastDue else was
  }

  lemma LifecycleStatus(d: Store, t: Id, e: Event, s: Id)
    requires t in d.subs && s in d.subs
    ensures s in AfterLifecycle(d, t, e).subs
    ensures AfterLifecycle(d, t, e).subs[s].status ==
              if t == s then StatusAfterEvent(d.subs[s].status, e.kind, None, false) else d.subs[s].status
  {
  }

  lemma ChargedStatus(sub: Subscription, x: Intent, kind: EventType, now: Time)
    requires kind in {PaymentSucceeded, RenewalSucceeded}
    ensures Charged(sub, x, now).status == StatusAfterEvent(sub.status, kind, Some(x.purpose), x.targetPlan.Some?)
  {
  }

  lemma DeliveryStatus(d: Store, e: Event, now: Time, s: Id)
    requires s in d.subs && e.id !in d.seen
    ensures s in AfterWebhook(d, e, now).subs
    ensures var was, found := d.subs[s].status, FindIntent(d.intents, e);
            AfterWebhook(d, e, now).subs[s].status ==
              if SubjectOf(d, e) != Some(s) then was
              else if found.None? then StatusAfterEvent(was, e.kind, None, false)
              else if e.kind in {PaymentSucceeded, RenewalSucceeded} && e.amount != None && e.amount != Some(d.intents[found.value].expected)
              then was
              else StatusAfterEvent(was, e.kind, Some(d.intents[found.value].purpose), d.intents[found.value].targetPlan.Some?)
  {
    var d0, found := d.(seen := d.seen[e.id := now]), FindIntent(d.intents, e);
    if found.None? {
      if e.subscriptionId != "" && e.subscriptionId in d.subs { LifecycleStatus(d0, e.subscriptionId, e, s); }
    } else if d.intents[found.value].sub in d.subs && !AmountMismatch(d.intents[found.value], e) {
      var x := d.intents[found.value];
      if IsSuccess(e.kind) {
        ChargedStatus(d.subs[x.sub], x, e.kind, now);
      } else {
        LifecycleStatus(SetIntent(d0, found.value, Failed), x.sub, e, s);
      }
    }
  }

  /** The exact status after any operation: a charge makes ACTIVE whatever was before, a setback
      about an ACTIVE subscription makes PAST_DUE, and so on; nothing else changes it. */
  lemma StatusStep(d: Store, op: Op, s: Id)
    requires s in d.subs
    ensures s in Apply(d, op).subs
    ensures var was := d.subs[s].status;
            Apply(d, op).subs[s].status ==
              match op
              case CancelSub(x) => if x == s then Canceled else was
              case SelectPlan(x, plan, _, _) => if x == s && plan != None then Pending else was
              case ReactivateSub(x, at) =>
                if x == s && was == Canceled && d.subs[s].canceledEffectiveAt.Some? && at < d.subs[s].canceledEffectiveAt.value
                then Active else was
              case Deliver(e, _) =>
                var found := FindIntent(d.intents, e);
                if e.id in d.seen || SubjectOf(d, e) != Some(s) then was
                else if found.None? then StatusAfterEvent(was, e.kind, None, false)
                else if e.kind in {PaymentSucceeded, RenewalSucceeded} && e.amount != None && e.amount != Some(d.intents[found.value].expected)
                then was
                else StatusAfterEvent(was, e.kind, Some(d.intents[found.value].purpose), d.intents[found.value].targetPlan.Some?)
              case _ => was
  {
    if op.Deliver? && op.event.id !in d.seen { DeliveryStatus(d, op.event, op.now, s); }
  }

  /** A charge has its effect from every status. */
  lemma ChargeActivates(d: Store, op: Op, s: Id)
    requires ChargesSub(d, op, s)
    ensures s in d.subs && s in Apply(d, op).subs
    ensures var x := ChargeOf(d, op).value;
            Apply(d, op).subs[s].status ==
              if x.purpose in {Activation, Renewal} || (x.purpose == Upgrade && x.targetPlan != None) then Active
              else d.subs[s].status
  {
  }

  /** A first failure, dispute or refund ends an ACTIVE subscription's standing, and one about a
      PENDING or CANCELED subscription leaves it. */
  lemma SetbackHasEffect(d: Store, op: Op, s: Id)
    requires op.Deliver? && op.event.id !in d.seen && SubjectOf(d, op.event) == Some(s)
    requires op.event.kind in {PaymentFailed, RenewalFailed, Disputed, Refunded}
    ensures s in d.subs && s in Apply(d, op).subs
    ensures Apply(d, op).subs[s].status == if d.subs[s].status == Active then PastDue else d.subs[s].status
  {
  }

  /** A success resolved without an intent follows the transition table and writes no invoice. */
  lemma SuccessWithoutIntent(d: Store, op: Op, s: Id)
    requires op.Deliver? && op.event.id !in d.seen && SubjectOf(d, op.event) == Some(s) && FindIntent(d.intents, op.event) == None
    requires op.event.kind in {PaymentSucceeded, RenewalSucceeded}
    ensures s in d.subs && s in Apply(d, op).subs && Apply(d, op).invoices == d.invoices
    ensures Apply(d, op).subs[s].status == Active <==>
              d.subs[s].status in (if op.event.kind == PaymentSucceeded then {Pending, Active, PastDue} else {Active, PastDue})
    ensures Apply(d, op).subs[s].status in {Active, d.subs[s].status}
  {
  }

  /** The intent a first delivery resolves to ends SUCCEEDED if it is charged and FAILED otherwise;
      a new one starts CREATED; all others stay. */
  lemma IntentStep(d: Store, op: Op, i: nat)
    requires i < |d.intents|
    ensures |Apply(d, op).intents| >= |d.intents|
    ensures Apply(d, op).intents[i] ==
              if op.Deliver? && op.event.id !in d.seen && FindIntent(d.intents, op.event) == Some(i) && d.intents[i].sub in d.subs
              then d.intents[i].(status := if ChargesSub(d, op, d.intents[i].sub) then Succeeded else Failed)
              else d.intents[i]
    ensures |Apply(d, op).intents| > |d.intents| <==>
              op.NewIntent? && forall j :: 0 <= j < |d.intents| ==> d.intents[j].id != op.intent.id
    ensures |Apply(d, op).intents| > |d.intents| ==>
              Apply(d, op).intents == d.intents + [op.intent.(status := Created)]
  {
  }

  /** A charge writes one PAID invoice of the expected amount, issued at the delivery; a refund voids
      the latest issued PAID invoice of its subscription; nothing else touches invoices. */
  lemma InvoiceStep(d: Store, op: Op)
    ensures var after := Apply(d, op).invoices;
            if ChargeOf(d, op).Some? then
              after == d.invoices + [Invoice(ChargeOf(d, op).value.sub, op.now, ChargeOf(d, op).value.expected, Paid)]
            else if exists s :: s in d.subs && RefundsSub(d, op, s) then
              exists i :: 0 <= i < |d.invoices| && d.invoices[i].status == Paid && RefundsSub(d, op, d.invoices[i].sub)
                && after == d.invoices[i := d.invoices[i].(status := Void)]
                && forall j :: 0 <= j < |d.invoices| && d.invoices[j].sub == d.invoices[i].sub && d.invoices[j].status == Paid
                     ==> d.invoices[j].issuedAt <= d.invoices[i].issuedAt
            else after == d.invoices
  {
    if exists s :: s in d.subs && RefundsSub(d, op, s) {
      var s :| s in d.subs && RefundsSub(d, op, s);
      var i := LastPaid(d.invoices, s).value;
      assert d.invoices[i].sub == s;
    }
  }

  /** What the calls that name a subscription leave of it, and of the others. */
  lemma CallStep(d: Store, op: Op, s: Id)
    requires op.CancelSub? || op.ReactivateSub? || op.SelectPlan? || op.CreateTombstone?
    ensures var d' := Apply(d, op);
            && d'.intents == d.intents && d'.invoices == d.invoices && d'.seen == d.seen
            && (s != op.sub ==> (s in d'.subs <==> s in d.subs))
            && (s != op.sub && s in d.subs ==> d'.subs[s] == d.subs[s])
            && (s == op.sub && s in d.subs ==> s in d'.subs)
            && (s == op.sub && s in d.subs ==>
                  var x := d.subs[s];
                  d'.subs[s] ==
                    match op
                    case CancelSub(_) => x.(status := Canceled, canceledEffectiveAt := Some(x.periodEnd))
                    case ReactivateSub(_, at) =>
                      if x.status == Canceled && x.canceledEffectiveAt.Some? && at < x.canceledEffectiveAt.value
                      then x.(status := Active, canceledEffectiveAt := None) else x
                    case SelectPlan(_, plan, cycle, _) =>
                      if plan.Some? then x.(status := Pending, planId := plan.value, cycle := cycle) else x
                    case _ => x)
            && (s == op.sub && s !in d.subs ==>
                  (s in d'.subs <==> op.CreateTombstone? || (op.SelectPlan? && op.plan != None)))
            && (s == op.sub && s !in d.subs && s in d'.subs ==>
                  d'.subs[s] ==
                    if op.SelectPlan? then Subscription(Pending, op.cycle, op.plan.value, 0, op.at + 30 * DAY_MS, None)
                    else Subscription(Canceled, Monthly, op.anyPlan, 0, 0, None))
  {
  }

  // ---- cancellation marks ----

  /** CANCELED without the date a purge waits for. */
  predicate Undated(d: Store, s: Id) {
    s in d.subs && d.subs[s].status == Canceled && d.subs[s].canceledEffectiveAt.None?
  }

  predicate CreatesTombstone(op: Op, s: Id) {
    op.CreateTombstone? && op.sub == s
  }

  lemma UndatedStep(d: Store, op: Op, s: Id)
    requires Undated(Apply(d, op), s)
    ensures Undated(d, s) || (s !in d.subs && CreatesTombstone(op, s))
  {
    if s in d.subs { CanceledComesFromCancel(d, op, s); }
  }

  /** A CANCELED subscription always has its date, unless it is a tombstone's. */
  lemma {:induction false} OnlyTombstonesAreUndated(d: Store, ops: seq<Op>, s: Id)
    requires Undated(Run(d, ops), s)
    ensures Undated(d, s) || (s !in d.subs && exists i :: 0 <= i < |ops| && CreatesTombstone(ops[i], s))
    decreases |ops|
  {
    if ops != [] {
      OnlyTombstonesAreUndated(Apply(d, ops[0]), ops[1..], s);
      if Undated(Apply(d, ops[0]), s) {
        UndatedStep(d, ops[0], s);
      } else {
        var i :| 0 <= i < |ops[1..]| && CreatesTombstone(ops[1..][i], s);
        assert CreatesTombstone(ops[i + 1], s);
        if s in d.subs { PeriodStep(d, ops[0], s); }
      }
    }
  }

  // ---- what a delivery leaves alone ----

  /** A delivery touches no subscription and no invoice but its subject's, and at most one intent. */
  lemma DeliveryTouchesOnlyItsSubject(d: Store, e: Event, now: Time, s: Id)
    requires s in d.subs && SubjectOf(d, e) != Some(s)
    ensures var d' := AfterWebhook(d, e, now);
            && s in d'.subs && d'.subs[s] == d.subs[s]
            && LedgerOf(d'.invoices, s) == LedgerOf(d.invoices, s)
            && |d'.intents| == |d.intents|
            && forall i :: 0 <= i < |d.intents| && FindIntent(d.intents, e) != Some(i) ==> d'.intents[i] == d.intents[i]
  {
    StepBooks(d, Deliver(e, now), s);
  }

  /** A success that reports another amount only fails its intent. */
  lemma MismatchOnlyFailsTheIntent(d: Store, e: Event, now: Time, i: nat)
    requires e.id !in d.seen && FindIntent(d.intents, e) == Some(i)
    requires d.intents[i].sub in d.subs && AmountMismatch(d.intents[i], e)
    ensures var d' := AfterWebhook(d, e, now);
            && d'.subs == d.subs && d'.invoices == d.invoices
            && d'.intents == d.intents[i := d.intents[i].(status := Failed)]
  {
  }

  // ---- the service ----

  datatype WebhookResult = Processed | Duplicate | SignatureInvalid | Malformed

  datatype BillingResult = Ok(date: Option<Time>) | NotFound | RetainWindowElapsed

  class BillingService {
    var seen: map<Id, Time>
    var intents: seq<Intent>
    var subs: map<Id, Subscription>
    var invoices: seq<Invoice>

    ghost function State(): Store
      reads this
    {
      Store(seen, intents, subs, invoices)
    }

    /** One delivery. The signature check is a given verdict on the raw bytes; None stands for a
        payload that does not have the event's shape. */
    method ProcessWebhook(signatureValid: bool, payload: Option<Event>, now: Time) returns (res: WebhookResult)
      modifies this
      ensures res == SignatureInvalid <==> !signatureValid
      ensures res == Malformed <==> signatureValid && (payload.None? || payload.value.id == "")
      ensures res == Duplicate <==> signatureValid && payload.Some? && payload.value.id != "" && payload.value.id in old(seen)
      ensures State() == if res == Processed then AfterWebhook(old(State()), payload.value, now) else old(State())
      ensures res == Processed ==> seen == old(seen)[payload.value.id := now]
    {
      if !signatureValid { return SignatureInvalid; }
      if payload.None? || payload.value.id == "" { return Malformed; }
      var e := payload.value;
      if e.id in seen { return Duplicate; }
      seen := seen[e.id := now];
      ApplyEvent(e, now);
      return Processed;
    }

    method ApplyEvent(e: Event, now: Time)
      modifies this
      ensures State() == AfterEvent(old(State()), e, now)
    {
      var found := FindIntent(intents, e);
      if found.None? {
        if e.subscriptionId == "" || e.subscriptionId !in subs { return; }
        ApplyLifecycleOnly(e.subscriptionId, e);
        return;
      }
      var i := found.value;
      if intents[i].sub !in subs { return; }
      if AmountMismatch(intents[i], e) {
        SetIntentStatus(i, Failed);
        return;
      }
      ApplyIntentEffect(i, e, now);
    }

    method ApplyIntentEffect(i: nat, e: Event, now: Time)
      requires i < |intents| && intents[i].sub in subs
      modifies this
      ensures State() == AfterIntentEffect(old(State()), i, e, now)
    {
      var x := intents[i];
      var sub := subs[x.sub];
      if !IsSuccess(e.kind) {
        SetIntentStatus(i, Failed);
        ApplyLifecycleOnly(x.sub, e);
        return;
      }
      SetIntentStatus(i, Succeeded);
      match x.purpose {
        case Activation =>
          var periodEnd := if sub.status == Pending then FreshPeriodEnd(sub, now) else ExtendedPeriodEnd(sub, now);
          subs := subs[x.sub := sub.(status := Active, periodEnd := periodEnd)];
        case Renewal =>
          subs := subs[x.sub := sub.(status := Active, periodEnd := ExtendedPeriodEnd(sub, now))];
        case Overflow =>
          subs := subs[x.sub := sub.(slotsUsed := sub.slotsUsed + 1)];
        case Upgrade =>
          if x.targetPlan.Some? {
            subs := subs[x.sub := sub.(planId := x.targetPlan.value, status := Active)];
          }
          assert subs == subs[x.sub := Charged(sub, x, now)];
      }
      invoices := invoices + [Invoice(x.sub, now, x.expected, Paid)];
    }

    method SetIntentStatus(i: nat, status: IntentStatus)
      requires i < |intents|
      modifies this`intents
      ensures intents == old(intents)[i := old(intents)[i].(status := status)]
    {
      intents := intents[i := intents[i].(status := status)];
    }

    method ApplyLifecycleOnly(s: Id, e: Event)
      requires s in subs
      modifies this`subs, this`invoices
      ensures State() == AfterLifecycle(old(State()), s, e)
    {
      var next := ResolveTransition(subs[s].status, e.kind);
      if next.None? { return; }
      if e.kind == Refunded {
        var lastPaid := LastPaid(invoices, s);
        if lastPaid.Some? {
          invoices := invoices[lastPaid.value := invoices[lastPaid.value].(status := Void)];
        }
      }
      subs := subs[s := subs[s].(status := next.value)];
    }

    method Cancel(s: Id) returns (res: BillingResult)
      modifies this`subs
      ensures State() == AfterCancel(old(State()), s)
      ensures res == if s in old(subs) then Ok(Some(old(subs)[s].periodEnd)) else NotFound
    {
      if s !in subs { return NotFound; }
      var end := subs[s].periodEnd;
      subs := subs[s := subs[s].(status := Canceled, canceledEffectiveAt := Some(end))];
      return Ok(Some(end));
    }

    /** `s` is the family's subscription if it has one, else the new row's id. */
    method SelectPlan(s: Id, plan: Option<Id>, cycle: Cycle, now: Time) returns (known: bool)
      modifies this`subs
      ensures State() == AfterSelect(old(State()), s, plan, cycle, now)
      ensures known <==> plan.Some?
    {
      if plan.None? { return false; }
      if s in subs {
        subs := subs[s := subs[s].(planId := plan.value, status := Pending, cycle := cycle)];
      } else {
        subs := subs[s := Subscription(Pending, cycle, plan.value, 0, now + 30 * DAY_MS, None)];
      }
      return true;
    }

    method Reactivate(s: Id, now: Time) returns (res: BillingResult)
      modifies this`subs
      ensures State() == AfterReactivate(old(State()), s, now)
      ensures res == Ok(None) <==> s in old(subs) && Reactivatable(old(subs)[s], now)
      ensures res == NotFound <==> s !in old(subs)
    {
      if s !in subs { return NotFound; }
      var sub := subs[s];
      if sub.status != Canceled || sub.canceledEffectiveAt.None? { return RetainWindowElapsed; }
      if sub.canceledEffectiveAt.value <= now { return RetainWindowElapsed; }
      subs := subs[s := sub.(status := Active, canceledEffectiveAt := None)];
      return Ok(None);
    }
  }
}
