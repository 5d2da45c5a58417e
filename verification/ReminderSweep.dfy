/** The reminder sweep as a composition of dispatches (src/modules/reminders/reminders.service.ts).

    Each active child's reminders become intents, and each child's intents one dispatch; the cap
    and the repeat behaviour are then properties of the dispatcher. */
module ReminderSweep {
  import opened Common
  import opened ReminderCatalog
  import H = Homework
  import N = NotificationDispatch
  import R = ReminderRollup
  import W = Webhooks

  /** A child as the sweep reads it. */
  datatype Child = Child(id: Id, family: Id, paused: bool, deleted: bool)

  /** A reminder row as the sweep reads it. */
  datatype Config = Config(kind: ReminderType, enabled: bool, recipient: R.Recipient, family: Id, child: Id)

  /** The types the time sweep emits; the others come from their own producers. */
  const SWEEP_DRIVEN: set<ReminderType> := {DailyStudy, HomeworkDue, StreakProtection, MissedSession, WeeklySummary, ExamCountdown}

  predicate TriggerHolds(c: Config) {
    c.enabled && c.kind in SWEEP_DRIVEN
  }

  function ChildIntent(c: Config, now: Time): N.Intent {
    N.Intent(c.family, Some(c.child), N.ToChild, Some(c.kind), [N.Push], now, true)
  }

  function ParentIntent(c: Config, now: Time): N.Intent {
    N.Intent(c.family, Some(c.child), N.ToParent, Some(c.kind), [N.Push, N.Email], now, false)
  }

  /** One intent for each side the reminder addresses. */
  function IntentsFor(c: Config, now: Time): seq<N.Intent> {
    (if c.recipient == R.ToChild || c.recipient == R.ToBoth then [ChildIntent(c, now)] else [])
    + (if c.recipient == R.ToParent || c.recipient == R.ToBoth then [ParentIntent(c, now)] else [])
  }

  predicate Inactive(child: Child) {
    child.paused || child.deleted
  }

  function Kept(child: Child, intents: seq<N.Intent>): (r: seq<N.Intent>)
    ensures forall i :: i in r <==> i in intents && !(Inactive(child) && i.recipient == N.ToChild)
  {
    if intents == [] then []
    else
      var last := intents[|intents| - 1];
      Kept(child, intents[..|intents| - 1]) + if Inactive(child) && last.recipient == N.ToChild then [] else [last]
  }

  function Evaluated(child: Child, configs: seq<Config>, now: Time): seq<N.Intent> {
    if configs == [] then []
    else
      var last := configs[|configs| - 1];
      Evaluated(child, configs[..|configs| - 1], now)
      + if TriggerHolds(last) then Kept(child, IntentsFor(last, now)) else []
  }

  /** The row produces the intent if it is on and of a type the clock triggers: a push that counts
      against the cap to the child it addresses, unless that is paused or deleted, and an uncapped
      push and mail to the parent it addresses. */
  predicate Produces(child: Child, c: Config, now: Time, i: N.Intent) {
    && c.enabled && c.kind != StruggleAlert && c.kind != Achievement && c.kind != RewardRedeemed
    && i.familyId == c.family && i.childId == Some(c.child) && i.kind == Some(c.kind) && i.triggerTime == now
    && (|| (&& c.recipient in {R.ToChild, R.ToBoth} && !child.paused && !child.deleted
            && i.recipient == N.ToChild && i.channels == [N.Push] && i.countsAgainstCap)
        || (&& c.recipient in {R.ToParent, R.ToBoth}
            && i.recipient == N.ToParent && i.channels == [N.Push, N.Email] && !i.countsAgainstCap))
  }

  lemma SweepDriven(t: ReminderType)
    ensures t in SWEEP_DRIVEN <==> t != StruggleAlert && t != Achievement && t != RewardRedeemed
  {
    assert t.DailyStudy? || t.HomeworkDue? || t.StreakProtection? || t.MissedSession? || t.WeeklySummary?
        || t.StruggleAlert? || t.ExamCountdown? || t.Achievement? || t.RewardRedeemed?;
  }

  lemma SidesOf(c: Config, now: Time, i: N.Intent)
    ensures i == ChildIntent(c, now) <==>
              && i.familyId == c.family && i.childId == Some(c.child) && i.kind == Some(c.kind) && i.triggerTime == now
              && i.recipient == N.ToChild && i.channels == [N.Push] && i.countsAgainstCap
    ensures i == ParentIntent(c, now) <==>
              && i.familyId == c.family && i.childId == Some(c.child) && i.kind == Some(c.kind) && i.triggerTime == now
              && i.recipient == N.ToParent && i.channels == [N.Push, N.Email] && !i.countsAgainstCap
  {
  }

  lemma IntentsOfSides(c: Config, now: Time, i: N.Intent)
    ensures i in IntentsFor(c, now) <==>
              || (i == ChildIntent(c, now) && c.recipient in {R.ToChild, R.ToBoth})
              || (i == ParentIntent(c, now) && c.recipient in {R.ToParent, R.ToBoth})
  {
  }

  lemma ConfigProduces(child: Child, c: Config, now: Time, i: N.Intent)
    ensures i in (if TriggerHolds(c) then Kept(child, IntentsFor(c, now)) else []) <==> Produces(child, c, now, i)
  {
    SweepDriven(c.kind);
    SidesOf(c, now, i);
    IntentsOfSides(c, now, i);
  }

  /** A child's intents are those its rows produce. */
  lemma {:induction false} EvaluatedIs(child: Child, configs: seq<Config>, now: Time, i: N.Intent)
    ensures i in Evaluated(child, configs, now) <==> exists c :: c in configs && Produces(child, c, now, i)
    decreases |configs|
  {
    if configs != [] {
      var prefix, last := configs[..|configs| - 1], configs[|configs| - 1];
      EvaluatedIs(child, prefix, now, i);
      ConfigProduces(child, last, now, i);
      assert forall c :: c in configs <==> c in prefix || c == last;
    }
  }

  lemma KeptSnoc(child: Child, intents: seq<N.Intent>, i: N.Intent)
    ensures Kept(child, intents + [i]) == Kept(child, intents) + if Inactive(child) && i.recipient == N.ToChild then [] else [i]
  {
    assert (intents + [i])[..|intents|] == intents;
  }

  lemma FewForOneRow(child: Child, c: Config, now: Time)
    ensures var r := Kept(child, IntentsFor(c, now)); |r| <= 2 && (|r| == 2 ==> r[0] != r[1])
  {
    KeptSnoc(child, [], ChildIntent(c, now));
    KeptSnoc(child, [], ParentIntent(c, now));
    KeptSnoc(child, [ChildIntent(c, now)], ParentIntent(c, now));
    assert [] + [ChildIntent(c, now)] == [ChildIntent(c, now)] && [] + [ParentIntent(c, now)] == [ParentIntent(c, now)];
  }

  predicate Distinct(s: seq<N.Intent>) {
    forall i, j :: 0 <= i < j < |s| ==> s[i] != s[j]
  }

  lemma DistinctConcat(a: seq<N.Intent>, b: seq<N.Intent>)
    requires Distinct(a) && Distinct(b) && forall x, y :: x in a && y in b ==> x != y
    ensures Distinct(a + b)
  {
    forall i, j | 0 <= i < j < |a + b| ensures (a + b)[i] != (a + b)[j] {
      if i < |a| <= j { assert a[i] in a && b[j - |a|] in b; }
    }
  }

  lemma FromOtherRows(child: Child, configs: seq<Config>, last: Config, now: Time, i: N.Intent, j: N.Intent)
    requires forall c :: c in configs ==> (c.child, c.kind) != (last.child, last.kind)
    requires i in Evaluated(child, configs, now) && Produces(child, last, now, j)
    ensures i != j
  {
    EvaluatedIs(child, configs, now, i);
  }

  /** With one row per child and type, no intent comes twice. */
  lemma {:induction false} EvaluatedOnce(child: Child, configs: seq<Config>, now: Time)
    requires forall a, b :: 0 <= a < b < |configs| ==> (configs[a].child, configs[a].kind) != (configs[b].child, configs[b].kind)
    ensures Distinct(Evaluated(child, configs, now))
    decreases |configs|
  {
    if configs != [] {
      var n := |configs| - 1;
      var before, last := Evaluated(child, configs[..n], now), configs[n];
      var more := if TriggerHolds(last) then Kept(child, IntentsFor(last, now)) else [];
      EvaluatedOnce(child, configs[..n], now);
      FewForOneRow(child, last, now);
      forall i, j | i in before && j in more ensures i != j {
        ConfigProduces(child, last, now, j);
        FromOtherRows(child, configs[..n], last, now, i, j);
      }
      DistinctConcat(before, more);
    }
  }

  // ---- the sweep as dispatcher steps ----

  /** One dispatch for each child that has intents. */
  function SweepSteps(children: seq<(Child, seq<Config>)>, now: Time, day: int): seq<N.Step>
    decreases |children|
  {
    if children == [] then []
    else
      var n := |children| - 1;
      var intents := Evaluated(children[n].0, children[n].1, now);
      SweepSteps(children[..n], now, day) + if intents == [] then [] else [N.DispatchStep(intents, day)]
  }

  /** Every step of a sweep dispatches typed intents, and its capped intents push only. */
  predicate IsSweepStep(s: N.Step) {
    && s.DispatchStep? && N.Typed(s.intents) && s.intents != []
    && forall i :: i in s.intents && N.Capped(i) ==> i.channels == [N.Push] && i.recipient == N.ToChild
  }

  lemma EvaluatedSteps(child: Child, configs: seq<Config>, now: Time, day: int)
    requires Evaluated(child, configs, now) != []
    ensures IsSweepStep(N.DispatchStep(Evaluated(child, configs, now), day))
  {
    forall i | i in Evaluated(child, configs, now)
      ensures i.kind.Some? && (N.Capped(i) ==> i.channels == [N.Push] && i.recipient == N.ToChild)
    {
      EvaluatedIs(child, configs, now, i);
    }
  }

  lemma {:induction false} SweepStepsAre(children: seq<(Child, seq<Config>)>, now: Time, day: int)
    ensures forall i :: 0 <= i < |SweepSteps(children, now, day)| ==> IsSweepStep(SweepSteps(children, now, day)[i])
    decreases |children|
  {
    if children != [] {
      var n := |children| - 1;
      SweepStepsAre(children[..n], now, day);
      if Evaluated(children[n].0, children[n].1, now) != [] {
        EvaluatedSteps(children[n].0, children[n].1, now, day);
      }
    }
  }

  /** In any run of sweeps, deliveries and exhausted jobs, no child is ever over the daily cap:
      sweeps push to the child on one channel, so a dead-lettered row never comes back. */
  lemma SweepsKeepCap(st: N.Store, steps: seq<N.Step>, cap: nat)
    requires N.SoleJobs(st) && N.WithinCap(st, cap)
    requires forall i :: 0 <= i < |steps| && steps[i].DispatchStep? ==> IsSweepStep(steps[i])
    ensures N.CapHoldsThroughout(st, steps, cap)
  {
    forall i | 0 <= i < |steps| ensures N.OneChannelStep(steps[i]) {}
    N.OneChannelKeepsCap(st, steps, cap);
  }

  lemma EvaluatedTyped(child: Child, configs: seq<Config>, now: Time)
    ensures N.Typed(Evaluated(child, configs, now))
  {
    forall i | i in Evaluated(child, configs, now) ensures i.kind.Some? {
      EvaluatedIs(child, configs, now, i);
    }
  }

  /** A second sweep of a child on the same day, with the same or fewer reminders on, adds no
      capped row, whatever was delivered in between; the parent gets every notice again. */
  lemma SecondSweepOfTheDay(st: N.Store, child: Child, configs: seq<Config>, now: Time, child': Child,
                            configs': seq<Config>, now': Time, between: seq<N.Step>, day: int, cap: nat)
    requires forall c' :: c' in configs' && Produces(child', c', now', ChildIntent(c', now')) ==>
               exists c :: c in configs && Produces(child, c, now, ChildIntent(c, now)) && c.kind == c'.kind && c.child == c'.child
    ensures var mid := N.RunSteps(N.Apply(st, N.DispatchStep(Evaluated(child, configs, now), day), cap), between, cap);
            var again := Evaluated(child', configs', now');
            var rows := N.Dispatch(mid, again, day, cap).st.rows;
            && mid.rows <= rows
            && |rows| == |mid.rows| + |N.UncappedOf(again)|
            && rows == N.PutUncapped(N.Tally(mid, 0, 0), N.UncappedOf(again)).st.rows
  {
    var first, again := Evaluated(child, configs, now), Evaluated(child', configs', now');
    EvaluatedTyped(child, configs, now);
    EvaluatedTyped(child', configs', now');
    forall p | p in N.Pairs(again) ensures p in N.Pairs(first) {
      var i :| i in again && N.Capped(i) && p == (i.childId.value, i.kind.value);
      EvaluatedIs(child', configs', now', i);
      var c' :| c' in configs' && Produces(child', c', now', i);
      assert i == ChildIntent(c', now');
      var c :| c in configs && Produces(child, c, now, ChildIntent(c, now)) && c.kind == c'.kind && c.child == c'.child;
      EvaluatedIs(child, configs, now, ChildIntent(c, now));
    }
    N.RepeatedSweepAddsNoCapped(st, first, between, again, day, cap);
  }

  // ---- billing notices ----

  const RENEWAL_LOOKAHEAD: Time := 3 * DAY_MS

  /** A subscription as the billing notices read it. */
  datatype Subscription = Subscription(family: Id, status: W.Status, periodEnd: Time)

  predicate Renewing(s: Subscription, now: Time) {
    s.status == W.Active && now < s.periodEnd <= now + RENEWAL_LOOKAHEAD
  }

  function BillingIntent(f: Id, now: Time): N.Intent {
    N.Intent(f, None, N.ToParent, None, [N.Push, N.Email], now, false)
  }

  function PastDueNotices(subs: seq<Subscription>, now: Time): seq<N.Intent> {
    if subs == [] then []
    else
      var last := subs[|subs| - 1];
      PastDueNotices(subs[..|subs| - 1], now) + if last.status == W.PastDue then [BillingIntent(last.family, now)] else []
  }

  function RenewalNotices(subs: seq<Subscription>, now: Time): seq<N.Intent> {
    if subs == [] then []
    else
      var last := subs[|subs| - 1];
      RenewalNotices(subs[..|subs| - 1], now) + if Renewing(last, now) then [BillingIntent(last.family, now)] else []
  }

  function BillingNotices(subs: seq<Subscription>, now: Time): seq<N.Intent> {
    PastDueNotices(subs, now) + RenewalNotices(subs, now)
  }

  /** The subscriptions that get a notice: past due, or active and ending within three days. */
  function Notified(subs: seq<Subscription>, now: Time): set<nat> {
    set n: nat | n < |subs| && (|| subs[n].status == W.PastDue
                               || (subs[n].status == W.Active && 0 < subs[n].periodEnd - now <= 3 * DAY_MS))
  }

  lemma NotifiedSnoc(subs: seq<Subscription>, now: Time)
    requires subs != []
    ensures var n := |subs| - 1;
            Notified(subs, now) == Notified(subs[..n], now) + if n in Notified(subs, now) then {n} else {}
  {
  }

  lemma {:induction false} NoticeCount(subs: seq<Subscription>, now: Time)
    ensures |PastDueNotices(subs, now)| + |RenewalNotices(subs, now)| == |Notified(subs, now)|
    decreases |subs|
  {
    if subs != [] {
      NoticeCount(subs[..|subs| - 1], now);
      NotifiedSnoc(subs, now);
    }
  }

  /** The notice is to the parent of the subscription's family, on push and mail, for no child. */
  predicate NoticeTo(i: N.Intent, f: Id, now: Time) {
    && i.familyId == f && i.childId == None && i.recipient == N.ToParent && i.kind == None
    && i.channels == [N.Push, N.Email] && i.triggerTime == now && !i.countsAgainstCap
  }

  lemma {:induction false} PartsAddressNotified(subs: seq<Subscription>, now: Time)
    ensures forall i :: i in PastDueNotices(subs, now) ==> exists n :: n in Notified(subs, now) && NoticeTo(i, subs[n].family, now)
    ensures forall i :: i in RenewalNotices(subs, now) ==> exists n :: n in Notified(subs, now) && NoticeTo(i, subs[n].family, now)
    ensures forall n :: n in Notified(subs, now) ==>
              exists i :: i in PastDueNotices(subs, now) + RenewalNotices(subs, now) && NoticeTo(i, subs[n].family, now)
    decreases |subs|
  {
    if subs != [] {
      var n := |subs| - 1;
      PartsAddressNotified(subs[..n], now);
      NotifiedSnoc(subs, now);
      assert NoticeTo(BillingIntent(subs[n].family, now), subs[n].family, now);
    }
  }

  /** One notice for each such subscription and no other. */
  lemma BillingNoticesAddressNotified(subs: seq<Subscription>, now: Time)
    ensures |BillingNotices(subs, now)| == |Notified(subs, now)|
    ensures forall i :: i in BillingNotices(subs, now) ==> exists n :: n in Notified(subs, now) && NoticeTo(i, subs[n].family, now)
    ensures forall n :: n in Notified(subs, now) ==> exists i :: i in BillingNotices(subs, now) && NoticeTo(i, subs[n].family, now)
  {
    NoticeCount(subs, now);
    PartsAddressNotified(subs, now);
  }

  /** Billing notices address no child, so they never count against a cap. */
  lemma {:induction false} BillingNoticesAreUncapped(subs: seq<Subscription>, now: Time)
    ensures forall i :: i in BillingNotices(subs, now) ==> i.childId == None && !i.countsAgainstCap && !N.Capped(i)
    decreases |subs|
  {
    if subs != [] { BillingNoticesAreUncapped(subs[..|subs| - 1], now); }
  }

  lemma {:induction false} AllUncapped(intents: seq<N.Intent>)
    requires forall i :: i in intents ==> !N.Capped(i)
    ensures N.CappedOf(intents) == [] && N.UncappedOf(intents) == intents
    decreases |intents|
  {
    if intents != [] {
      assert intents == [intents[0]] + intents[1..];
      AllUncapped(intents[1..]);
    }
  }

  /** Every billing notice becomes one more row on each run, whatever was dispatched before. */
  lemma BillingNoticesAllGoOut(st: N.Store, subs: seq<Subscription>, now: Time, day: int, cap: nat)
    ensures var t := N.Dispatch(st, BillingNotices(subs, now), day, cap);
            && t.delivered == |BillingNotices(subs, now)| && t.suppressed == 0
            && |t.st.rows| == |st.rows| + |BillingNotices(subs, now)| && st.rows <= t.st.rows
  {
    var intents := BillingNotices(subs, now);
    BillingNoticesAreUncapped(subs, now);
    AllUncapped(intents);
    N.UncappedOnlyAppends(N.Tally(st, 0, 0), intents);
  }

  function BillingSteps(subs: seq<Subscription>, now: Time, day: int): seq<N.Step> {
    if BillingNotices(subs, now) == [] then [] else [N.DispatchStep(BillingNotices(subs, now), day)]
  }

  lemma BillingRows(st: N.Store, subs: seq<Subscription>, now: Time, day: int, cap: nat)
    ensures |N.RunSteps(st, BillingSteps(subs, now, day), cap).rows| == |st.rows| + |BillingNotices(subs, now)|
  {
    BillingNoticesAllGoOut(st, subs, now, day, cap);
    if BillingNotices(subs, now) != [] {
      var step := N.DispatchStep(BillingNotices(subs, now), day);
      N.RunStepsSnoc(st, [], step, cap);
      assert [] + [step] == [step];
    }
  }

  /** The billing dispatch is a step of the kind that keeps the cap. */
  lemma BillingStepsAreSweepSteps(subs: seq<Subscription>, now: Time, day: int)
    ensures forall i :: 0 <= i < |BillingSteps(subs, now, day)| ==> IsSweepStep(BillingSteps(subs, now, day)[i])
  {
    BillingNoticesAreUncapped(subs, now);
  }

  // ---- the sweep's counts ----

  /** What the dispatches of a run report as suppressed. */
  function SuppressedIn(st: N.Store, steps: seq<N.Step>, cap: nat): nat
    decreases |steps|
  {
    if steps == [] then 0
    else (if steps[0].DispatchStep? then N.Dispatch(st, steps[0].intents, steps[0].day, cap).suppressed else 0)
         + SuppressedIn(N.Apply(st, steps[0], cap), steps[1..], cap)
  }

  function CappedIn(steps: seq<N.Step>): nat {
    if steps == [] then 0
    else (if steps[0].DispatchStep? then |N.CappedOf(steps[0].intents)| else 0) + CappedIn(steps[1..])
  }

  /** Over a run of dispatches: at least the SUPPRESSED rows written, at most the capped intents. */
  lemma {:induction false} SuppressedIsWithin(st: N.Store, steps: seq<N.Step>, cap: nat)
    requires forall i :: 0 <= i < |steps| ==> steps[i].DispatchStep?
    ensures var rows := N.RunSteps(st, steps, cap).rows;
            N.SuppressedRows(rows) - N.SuppressedRows(st.rows) <= SuppressedIn(st, steps, cap) <= CappedIn(steps)
    decreases |steps|
  {
    if steps != [] {
      N.DispatchSuppressesWithin(st, steps[0].intents, steps[0].day, cap);
      SuppressedIsWithin(N.Apply(st, steps[0], cap), steps[1..], cap);
    }
  }

  lemma {:induction false} SuppressedSnoc(st: N.Store, steps: seq<N.Step>, intents: seq<N.Intent>, day: int, cap: nat)
    ensures SuppressedIn(st, steps + [N.DispatchStep(intents, day)], cap)
         == SuppressedIn(st, steps, cap) + N.Dispatch(N.RunSteps(st, steps, cap), intents, day, cap).suppressed
    decreases |steps|
  {
    var step := N.DispatchStep(intents, day);
    if steps == [] {
      assert [] + [step] == [step] && [step][1..] == [];
    } else {
      assert (steps + [step])[1..] == steps[1..] + [step];
      SuppressedSnoc(N.Apply(st, steps[0], cap), steps[1..], intents, day, cap);
    }
  }

  // ---- the service ----

  method BuildIntentsForReminder(config: Config, now: Time) returns (intents: seq<N.Intent>)
    ensures intents == IntentsFor(config, now)
  {
    intents := [];
    if config.recipient == R.ToChild || config.recipient == R.ToBoth {
      intents := intents + [ChildIntent(config, now)];
    }
    if config.recipient == R.ToParent || config.recipient == R.ToBoth {
      intents := intents + [ParentIntent(config, now)];
    }
  }

  /** The inner loop: an inactive child gets nothing, its parent does. */
  method KeepForChild(child: Child, both: seq<N.Intent>) returns (kept: seq<N.Intent>)
    ensures kept == Kept(child, both)
  {
    kept := [];
    for m := 0 to |both|
      invariant kept == Kept(child, both[..m])
    {
      assert both[..m + 1][..m] == both[..m];
      if !(Inactive(child) && both[m].recipient == N.ToChild) { kept := kept + [both[m]]; }
    }
    assert both[..|both|] == both;
  }

  method EvaluateChild(child: Child, configs: seq<Config>, now: Time) returns (intents: seq<N.Intent>)
    ensures intents == Evaluated(child, configs, now)
  {
    intents := [];
    for n := 0 to |configs|
      invariant intents == Evaluated(child, configs[..n], now)
    {
      assert configs[..n + 1][..n] == configs[..n];
      if TriggerHolds(configs[n]) {
        var both := BuildIntentsForReminder(configs[n], now);
        var kept := KeepForChild(child, both);
        intents := intents + kept;
      }
    }
    assert configs[..|configs|] == configs;
  }

  /** Renewal and dunning notices; returns how many went out. */
  method DispatchBillingNotifications(subs: seq<Subscription>, dispatcher: N.Dispatcher, now: Time) returns (delivered: nat)
    modifies dispatcher
    ensures dispatcher.View() ==
              N.RunSteps(old(dispatcher.View()), BillingSteps(subs, now, N.CapDay(now, dispatcher.offsetMinutes)), dispatcher.cap)
    ensures delivered == |BillingNotices(subs, now)|
    ensures N.PendingCount(dispatcher.rows) == N.PendingCount(old(dispatcher.rows)) + delivered
  {
    var intents: seq<N.Intent> := [];
    for n := 0 to |subs|
      invariant intents == PastDueNotices(subs[..n], now)
    {
      assert subs[..n + 1][..n] == subs[..n];
      if subs[n].status == W.PastDue { intents := intents + [BillingIntent(subs[n].family, now)]; }
    }
    assert subs[..|subs|] == subs && RenewalNotices(subs[..0], now) == [];
    for n := 0 to |subs|
      invariant intents == PastDueNotices(subs, now) + RenewalNotices(subs[..n], now)
    {
      assert subs[..n + 1][..n] == subs[..n];
      if Renewing(subs[n], now) { intents := intents + [BillingIntent(subs[n].family, now)]; }
    }
    if intents == [] { return 0; }
    ghost var day := N.CapDay(now, dispatcher.offsetMinutes);
    N.RunStepsSnoc(dispatcher.View(), [], N.DispatchStep(intents, day), dispatcher.cap);
    assert [] + [N.DispatchStep(intents, day)] == [N.DispatchStep(intents, day)];
    BillingNoticesAllGoOut(dispatcher.View(), subs, now, day, dispatcher.cap);
    N.DispatchCountsDelivered(dispatcher.View(), intents, day, dispatcher.cap);
    var sent, _ := dispatcher.BuildAndDispatch(intents, now);
    return sent;
  }

  /** The dispatches of the children with intents, one each. */
  method DispatchReminders(children: seq<(Child, seq<Config>)>, dispatcher: N.Dispatcher, now: Time)
    returns (delivered: nat, suppressed: nat)
    modifies dispatcher
    ensures var steps := SweepSteps(children, now, N.CapDay(now, dispatcher.offsetMinutes));
            && dispatcher.View() == N.RunSteps(old(dispatcher.View()), steps, dispatcher.cap)
            && suppressed == SuppressedIn(old(dispatcher.View()), steps, dispatcher.cap)
    ensures N.PendingCount(dispatcher.rows) == N.PendingCount(old(dispatcher.rows)) + delivered
    ensures |dispatcher.rows| - |old(dispatcher.rows)| <= delivered + suppressed
  {
    delivered, suppressed := 0, 0;
    ghost var day := N.CapDay(now, dispatcher.offsetMinutes);
    ghost var start := dispatcher.View();
    for n := 0 to |children|
      invariant dispatcher.View() == N.RunSteps(start, SweepSteps(children[..n], now, day), dispatcher.cap)
      invariant suppressed == SuppressedIn(start, SweepSteps(children[..n], now, day), dispatcher.cap)
      invariant N.PendingCount(dispatcher.rows) == N.PendingCount(start.rows) + delivered
      invariant |dispatcher.rows| - |start.rows| <= delivered + suppressed
    {
      assert children[..n + 1][..n] == children[..n];
      var intents := EvaluateChild(children[n].0, children[n].1, now);
      if intents != [] {
        N.RunStepsSnoc(start, SweepSteps(children[..n], now, day), N.DispatchStep(intents, day), dispatcher.cap);
        SuppressedSnoc(start, SweepSteps(children[..n], now, day), intents, day, dispatcher.cap);
        N.DispatchCountsDelivered(dispatcher.View(), intents, day, dispatcher.cap);
        var d, s := dispatcher.BuildAndDispatch(intents, now);
        delivered, suppressed := delivered + d, suppressed + s;
      } else {
        assert SweepSteps(children[..n + 1], now, day) == SweepSteps(children[..n], now, day);
      }
    }
    assert children[..|children|] == children;
  }

  /** The sweep: the children's reminders, the overdue homework, then the billing notices. */
  method RunRemindersSweep(children: seq<(Child, seq<Config>)>, subs: seq<Subscription>, dispatcher: N.Dispatcher,
                           homework: H.HomeworkService, now: Time)
    returns (count: nat, delivered: nat, suppressed: nat, overdue: nat)
    modifies dispatcher, homework
    ensures var day := N.CapDay(now, dispatcher.offsetMinutes);
            && dispatcher.View() == N.RunSteps(old(dispatcher.View()), SweepSteps(children, now, day)
                                                                       + BillingSteps(subs, now, day), dispatcher.cap)
            && suppressed == SuppressedIn(old(dispatcher.View()), SweepSteps(children, now, day), dispatcher.cap)
    ensures count == |children|
    ensures N.PendingCount(dispatcher.rows) == N.PendingCount(old(dispatcher.rows)) + delivered
    ensures |dispatcher.rows| - |old(dispatcher.rows)| <= delivered + suppressed
    ensures homework.items == H.AfterSweep(old(homework.items), now)
    ensures overdue == |set i | 0 <= i < |old(homework.items)| && homework.items[i] != old(homework.items)[i]|
  {
    ghost var day, start := N.CapDay(now, dispatcher.offsetMinutes), dispatcher.View();
    delivered, suppressed := DispatchReminders(children, dispatcher, now);
    overdue := homework.SweepOverdueHomework(now);
    ghost var mid := dispatcher.View();
    var notices := DispatchBillingNotifications(subs, dispatcher, now);
    BillingRows(mid, subs, now, day, dispatcher.cap);
    N.RunStepsSplit(start, SweepSteps(children, now, day), BillingSteps(subs, now, day), dispatcher.cap);
    return |children|, delivered + notices, suppressed, overdue;
  }
}
