/** Exactly-once ingestion of session events (src/modules/sessionEvents/sessionEvents.service.ts).

    A delivery may be malformed, may lack consent, may repeat an event, may fail before its
    transaction commits and be retried, or may die between the commit and the dispatch. */
module SessionEvents {
  import opened Common
  import H = Homework
  import P = Progress

  datatype Store = Store(ledger: set<Id>, homework: seq<H.Item>, progress: P.Store)

  /** One call of the notification dispatcher: the struggle alerts of an event, and the goal
      reminders found after its commit. */
  datatype Handover = Handover(eventId: Id, alerts: seq<P.Alert>, goals: seq<Id>)

  datatype State = State(store: Store, handovers: seq<Handover>)

  datatype Fate = FailsBeforeCommit | DiesAfterCommit | Finishes

  /** `payload` is None when the raw payload does not even have the event's shape; `goals` is what
      the reward query would return after the commit. */
  datatype Delivery = Delivery(payload: Option<P.Event>, consented: bool, fate: Fate, goals: seq<Id>)

  datatype Config = Config(progress: P.Config, enforceConsent: bool)

  datatype Status = Processed | Duplicate | Invalid | ConsentMissing

  // ---- validation ----

  predicate ValidEvent(e: P.Event) {
    && e.id != "" && e.family != "" && e.child != "" && e.subject != ""
    && e.topics != [] && (forall i :: 0 <= i < |e.topics| ==> e.topics[i] != "")
    && (forall t :: t in e.mastery ==> 0 <= e.mastery[t] <= 100 && t in e.topics)
    && (e.homeworkRef.Some? ==> e.homeworkRef.value != "")
  }

  predicate Accepted(cfg: Config, x: Delivery) {
    && x.payload.Some? && ValidEvent(x.payload.value)
    && (x.consented || !cfg.enforceConsent)
  }

  // ---- the transaction ----

  /** The homework side of an event; an abandoned session has none. */
  function HomeworkEvent(e: P.Event): Option<H.Event> {
    match e.outcome
    case Started => Some(H.Event(e.family, e.child, e.subject, e.topics, H.StartedEvent, e.occurredAt, e.homeworkRef))
    case Completed => Some(H.Event(e.family, e.child, e.subject, e.topics, H.CompletedEvent, e.occurredAt, e.homeworkRef))
    case Abandoned => None
  }

  function Committed(s: Store, cfg: Config, e: P.Event): Store {
    var h := HomeworkEvent(e);
    Store(s.ledger + {e.id},
          if h.Some? then H.AfterEvent(s.homework, h.value) else s.homework,
          P.Derive(s.progress, cfg.progress, e).store)
  }

  function AfterDelivery(st: State, cfg: Config, x: Delivery): State {
    if !Accepted(cfg, x) || x.fate == FailsBeforeCommit || x.payload.value.id in st.store.ledger then st
    else
      var e := x.payload.value;
      var alerts := P.Derive(st.store.progress, cfg.progress, e).alerts;
      State(Committed(st.store, cfg, e),
            if x.fate == Finishes && (alerts != [] || x.goals != []) then st.handovers + [Handover(e.id, alerts, x.goals)]
            else st.handovers)
  }

  /** Deliveries, mixed with the homework operations that do not come from events. */
  datatype Op = Deliver(delivery: Delivery) | SweepOverdue(now: Time) | CreateHomework(item: H.Item, now: Time)

  function Apply(st: State, cfg: Config, op: Op): State {
    match op
    case Deliver(x) => AfterDelivery(st, cfg, x)
    case SweepOverdue(now) => st.(store := st.store.(homework := H.AfterSweep(st.store.homework, now)))
    case CreateHomework(x, now) => st.(store := st.store.(homework := H.AfterCreate(st.store.homework, x, now)))
  }

  function Run(st: State, cfg: Config, ops: seq<Op>): State
    decreases |ops|
  {
    if ops == [] then st else Apply(Run(st, cfg, ops[..|ops| - 1]), cfg, ops[|ops| - 1])
  }

  // ---- what one delivery does ----

  /** An event enters the ledger exactly when a delivery of it is well formed, has consent or needs
      none, and reaches its commit. */
  lemma EntersLedgerIff(st: State, cfg: Config, x: Delivery, id: Id)
    ensures id in AfterDelivery(st, cfg, x).store.ledger <==>
              || id in st.store.ledger
              || (&& x.payload.Some? && x.payload.value.id == id && x.fate in {DiesAfterCommit, Finishes}
                  && (cfg.enforceConsent ==> x.consented)
                  && var e := x.payload.value;
                     && "" !in {e.id, e.family, e.child, e.subject} && |e.topics| >= 1 && "" !in e.topics
                     && (forall t :: t in e.mastery ==> t in e.topics && e.mastery[t] >= 0 && e.mastery[t] <= 100)
                     && e.homeworkRef != Some(""))
    ensures st.store.ledger <= AfterDelivery(st, cfg, x).store.ledger
    ensures AfterDelivery(st, cfg, x).store.ledger == st.store.ledger ==> AfterDelivery(st, cfg, x) == st
  {
  }

  predicate Commits(st: State, cfg: Config, x: Delivery) {
    Accepted(cfg, x) && x.fate != FailsBeforeCommit && x.payload.value.id !in st.store.ledger
  }

  /** The event is about the item: it names it, or it names none of the child's and the item is an
      unfinished one on its subject and topics. */
  ghost predicate Names(items: seq<H.Item>, e: P.Event, i: nat) {
    H.Concerns(items, H.Event(e.family, e.child, e.subject, e.topics, H.StartedEvent, e.occurredAt, e.homeworkRef), i)
  }

  /** A named item comes before any other, and among the others the most urgent. */
  ghost predicate NamesFirst(items: seq<H.Item>, e: P.Event, i: nat) {
    && Names(items, e, i)
    && (e.homeworkRef == Some(items[i].id) || forall j: nat :: Names(items, e, j) ==> items[i].deadline <= items[j].deadline)
  }

  lemma MatchNamesFirst(items: seq<H.Item>, e: P.Event, h: H.Event)
    requires h.family == e.family && h.child == e.child && h.subject == e.subject && h.topics == e.topics
    requires h.ref == e.homeworkRef
    ensures var i := H.MatchHomework(items, h);
            if i.Some? then NamesFirst(items, e, i.value) else forall j: nat :: !Names(items, e, j)
  {
    H.MatchIsMostUrgent(items, h);
    forall j: nat ensures Names(items, e, j) <==> H.Concerns(items, h, j) {
    }
  }

  /** What a committed delivery does to homework, said of its outcome: a started session moves the
      item it is about from PENDING to IN_PROGRESS, a completed one ends it, in time or late, and an
      abandoned one, or one about no item, does nothing. */
  lemma DeliveryMovesHomework(st: State, cfg: Config, x: Delivery)
    requires Commits(st, cfg, x)
    ensures var e, items, after := x.payload.value, st.store.homework, AfterDelivery(st, cfg, x).store.homework;
            if e.outcome == P.Abandoned || (forall i: nat :: !Names(items, e, i)) then after == items
            else
              exists i: nat :: NamesFirst(items, e, i) &&
                var was, inTime := items[i].status, e.occurredAt <= items[i].deadline;
                after == items[i := items[i].(status :=
                  if e.outcome == P.Started then (if was == H.Pending then H.InProgress else was)
                  else if was in {H.Completed, H.CompletedLate} then was
                  else if inTime && was != H.Overdue then H.Completed else H.CompletedLate)]
  {
    var e, items := x.payload.value, st.store.homework;
    if e.outcome != P.Abandoned {
      var h := HomeworkEvent(e).value;
      MatchNamesFirst(items, e, h);
      var i := H.MatchHomework(items, h);
      if i.Some? {
        assert NamesFirst(items, e, i.value);
        assert items[i.value := items[i.value]] == items;
      }
    }
  }

  // ---- the fold over first occurrences ----

  datatype Effect = Event(event: P.Event) | Other(op: H.Op)

  function IdsOf(effects: seq<Effect>): set<Id> {
    if effects == [] then {}
    else
      var last := effects[|effects| - 1];
      IdsOf(effects[..|effects| - 1]) + if last.Event? then {last.event.id} else {}
  }

  /** What is left of a run: every accepted event once, at its first commit, and the homework
      operations. */
  function Effects(cfg: Config, ops: seq<Op>, seen: set<Id>): seq<Effect>
    decreases |ops|
  {
    if ops == [] then []
    else
      var before := Effects(cfg, ops[..|ops| - 1], seen);
      match ops[|ops| - 1]
      case Deliver(x) =>
        if Accepted(cfg, x) && x.fate != FailsBeforeCommit && x.payload.value.id !in seen + IdsOf(before)
        then before + [Event(x.payload.value)] else before
      case SweepOverdue(now) => before + [Other(H.Sweep(now))]
      case CreateHomework(x, now) => before + [Other(H.Create(x, now))]
  }

  function PlayOne(s: Store, cfg: Config, x: Effect): Store {
    match x
    case Event(e) => Committed(s, cfg, e)
    case Other(op) => s.(homework := H.Apply(s.homework, op))
  }

  function Play(s: Store, cfg: Config, effects: seq<Effect>): Store
    decreases |effects|
  {
    if effects == [] then s
    else PlayOne(Play(s, cfg, effects[..|effects| - 1]), cfg, effects[|effects| - 1])
  }

  lemma PlaySnoc(s: Store, cfg: Config, effects: seq<Effect>, x: Effect)
    ensures IdsOf(effects + [x]) == IdsOf(effects) + if x.Event? then {x.event.id} else {}
    ensures Play(s, cfg, effects + [x]) == PlayOne(Play(s, cfg, effects), cfg, x)
  {
    assert (effects + [x])[..|effects|] == effects;
  }

  /** Exactly once: whatever repeats, fails, lacks consent or dies, the state is the fold over the
      first accepted occurrence of each event. */
  lemma {:induction false} RunIsFoldOverFirsts(st: State, cfg: Config, ops: seq<Op>)
    ensures var effects := Effects(cfg, ops, st.store.ledger);
            && Run(st, cfg, ops).store == Play(st.store, cfg, effects)
            && Run(st, cfg, ops).store.ledger == st.store.ledger + IdsOf(effects)
    decreases |ops|
  {
    if ops != [] {
      var prefix, op := ops[..|ops| - 1], ops[|ops| - 1];
      var before := Effects(cfg, prefix, st.store.ledger);
      RunIsFoldOverFirsts(st, cfg, prefix);
      match op {
        case Deliver(x) =>
          if x.payload.Some? { PlaySnoc(st.store, cfg, before, Event(x.payload.value)); }
        case SweepOverdue(now) => PlaySnoc(st.store, cfg, before, Other(H.Sweep(now)));
        case CreateHomework(x, now) => PlaySnoc(st.store, cfg, before, Other(H.Create(x, now)));
      }
    }
  }

  /** The events are new and carry distinct ids. */
  ghost predicate DistinctEvents(effects: seq<Effect>, seen: set<Id>) {
    && (forall i :: 0 <= i < |effects| && effects[i].Event? ==>
          effects[i].event.id !in seen && effects[i].event.id in IdsOf(effects))
    && (forall i, j :: 0 <= i < j < |effects| && effects[i].Event? && effects[j].Event? ==>
          effects[i].event.id != effects[j].event.id)
  }

  lemma OneMoreDistinct(before: seq<Effect>, x: Effect, seen: set<Id>)
    requires DistinctEvents(before, seen) && (x.Event? ==> x.event.id !in seen + IdsOf(before))
    ensures DistinctEvents(before + [x], seen)
  {
    assert (before + [x])[..|before|] == before;
  }

  /** The events that count carry distinct ids. */
  lemma {:induction false} FirstsAreDistinct(cfg: Config, ops: seq<Op>, seen: set<Id>)
    ensures DistinctEvents(Effects(cfg, ops, seen), seen)
    decreases |ops|
  {
    if ops != [] {
      var before := Effects(cfg, ops[..|ops| - 1], seen);
      FirstsAreDistinct(cfg, ops[..|ops| - 1], seen);
      match ops[|ops| - 1] {
        case Deliver(x) =>
          if Accepted(cfg, x) && x.payload.value.id !in seen + IdsOf(before) {
            OneMoreDistinct(before, Event(x.payload.value), seen);
          }
        case SweepOverdue(now) => OneMoreDistinct(before, Other(H.Sweep(now)), seen);
        case CreateHomework(x, now) => OneMoreDistinct(before, Other(H.Create(x, now)), seen);
      }
    }
  }

  // ---- progress and homework see their own part of the fold ----

  function EventsOf(effects: seq<Effect>): seq<P.Event> {
    if effects == [] then []
    else
      var last := effects[|effects| - 1];
      EventsOf(effects[..|effects| - 1]) + if last.Event? then [last.event] else []
  }

  function HomeworkOp(x: Effect): seq<H.Op> {
    match x
    case Event(e) => if HomeworkEvent(e).Some? then [H.SessionEvent(HomeworkEvent(e).value)] else []
    case Other(op) => [op]
  }

  function HomeworkOps(effects: seq<Effect>): seq<H.Op> {
    if effects == [] then []
    else
      HomeworkOps(effects[..|effects| - 1]) + HomeworkOp(effects[|effects| - 1])
  }

  lemma {:induction false} PlayProgress(s: Store, cfg: Config, effects: seq<Effect>)
    ensures Play(s, cfg, effects).progress == P.Run(s.progress, cfg.progress, EventsOf(effects)).store
    decreases |effects|
  {
    if effects != [] {
      var before, last := effects[..|effects| - 1], effects[|effects| - 1];
      PlayProgress(s, cfg, before);
      if last.Event? {
        assert (EventsOf(before) + [last.event])[..|EventsOf(before)|] == EventsOf(before);
      } else {
        assert EventsOf(before) + [] == EventsOf(before);
      }
    }
  }

  lemma HomeworkRunSnoc(items: seq<H.Item>, ops: seq<H.Op>, op: H.Op)
    ensures H.Run(items, ops + [op]) == H.Apply(H.Run(items, ops), op)
  {
    assert (ops + [op])[..|ops|] == ops;
  }

  lemma PlayOneHomework(s: Store, cfg: Config, x: Effect, items: seq<H.Item>, ops: seq<H.Op>)
    requires s.homework == H.Run(items, ops)
    ensures PlayOne(s, cfg, x).homework == H.Run(items, ops + HomeworkOp(x))
  {
    if HomeworkOp(x) == [] {
      assert ops + HomeworkOp(x) == ops;
    } else {
      HomeworkRunSnoc(items, ops, HomeworkOp(x)[0]);
      assert HomeworkOp(x) == [HomeworkOp(x)[0]];
    }
  }

  lemma {:induction false} PlayHomework(s: Store, cfg: Config, effects: seq<Effect>)
    ensures Play(s, cfg, effects).homework == H.Run(s.homework, HomeworkOps(effects))
    decreases |effects|
  {
    if effects != [] {
      var before := effects[..|effects| - 1];
      PlayHomework(s, cfg, before);
      PlayOneHomework(Play(s, cfg, before), cfg, effects[|effects| - 1], s.homework, HomeworkOps(before));
    }
  }

  /** XP, level and minutes depend only on which distinct events were processed: not on repeats,
      failures or order. */
  lemma SnapshotsDependOnDistinctEvents(st: State, cfg: Config, ops: seq<Op>, others: seq<Op>, c: Id)
    requires c in st.store.progress.children && P.Settled(st.store.progress.children[c])
    requires multiset(EventsOf(Effects(cfg, ops, st.store.ledger))) == multiset(EventsOf(Effects(cfg, others, st.store.ledger)))
    ensures c in Run(st, cfg, ops).store.progress.children && c in Run(st, cfg, others).store.progress.children
    ensures Run(st, cfg, ops).store.progress.children[c] == Run(st, cfg, others).store.progress.children[c]
  {
    var effects, effects' := Effects(cfg, ops, st.store.ledger), Effects(cfg, others, st.store.ledger);
    RunIsFoldOverFirsts(st, cfg, ops);
    RunIsFoldOverFirsts(st, cfg, others);
    PlayProgress(st.store, cfg, effects);
    PlayProgress(st.store, cfg, effects');
    P.SnapshotsIgnoreOrder(st.store.progress, cfg.progress, EventsOf(effects), EventsOf(effects'), c);
  }

  /** However events repeat and sweeps interleave, a homework item changes at most three times. */
  lemma HomeworkClimbsThroughRun(st: State, cfg: Config, ops: seq<Op>, i: nat)
    requires i < |st.store.homework|
    ensures var hops := HomeworkOps(Effects(cfg, ops, st.store.ledger));
            && Run(st, cfg, ops).store.homework == H.Run(st.store.homework, hops)
            && H.Changes(st.store.homework, hops, i) <= 3
  {
    var effects := Effects(cfg, ops, st.store.ledger);
    RunIsFoldOverFirsts(st, cfg, ops);
    PlayHomework(st.store, cfg, effects);
    H.AtMostThreeChanges(st.store.homework, HomeworkOps(effects), i);
  }

  /** The session behind a homework event: same outcome, family, child and time. */
  predicate SessionOf(e: P.Event, h: H.Event) {
    && e.outcome == (if h.kind == H.CompletedEvent then P.Completed else P.Started)
    && e.family == h.family && e.child == h.child && e.occurredAt == h.occurredAt
  }

  predicate OthersAreNoSessions(effects: seq<Effect>) {
    forall i :: 0 <= i < |effects| && effects[i].Other? ==> !effects[i].op.SessionEvent?
  }

  lemma {:induction false} OtherEffectsAreNoSessions(cfg: Config, ops: seq<Op>, seen: set<Id>)
    ensures OthersAreNoSessions(Effects(cfg, ops, seen))
    decreases |ops|
  {
    if ops != [] {
      OtherEffectsAreNoSessions(cfg, ops[..|ops| - 1], seen);
      var op := ops[|ops| - 1];
      assert op.Deliver? || op.SweepOverdue? || op.CreateHomework?;
    }
  }

  lemma {:induction false} HomeworkOpsHaveSessions(effects: seq<Effect>, k: nat)
    requires OthersAreNoSessions(effects) && k < |HomeworkOps(effects)| && HomeworkOps(effects)[k].SessionEvent?
    ensures exists e :: e in EventsOf(effects) && SessionOf(e, HomeworkOps(effects)[k].event)
    decreases |effects|
  {
    var n := |effects| - 1;
    var before, last, op := HomeworkOps(effects[..n]), effects[n], HomeworkOps(effects)[k];
    if k < |before| {
      HomeworkOpsHaveSessions(effects[..n], k);
      var e :| e in EventsOf(effects[..n]) && SessionOf(e, op.event);
      assert e in EventsOf(effects);
    } else {
      assert op == HomeworkOp(last)[k - |before|];
      assert last.Event? && last.event in EventsOf(effects) && SessionOf(last.event, op.event);
    }
  }

  /** A distinct completed session of the item's family and child is among the events. */
  ghost predicate HasCompletedSession(events: seq<P.Event>, x: H.Item, inTime: bool) {
    exists e :: e in events && e.outcome == P.Completed && e.family == x.family && e.child == x.child
                && (inTime ==> e.occurredAt <= x.deadline)
  }

  lemma CompletingSession(items: seq<H.Item>, effects: seq<Effect>, i: nat, k: nat, inTime: bool)
    requires OthersAreNoSessions(effects) && i < |items| && H.Completes(items, HomeworkOps(effects), i, k)
    requires inTime ==> HomeworkOps(effects)[k].event.occurredAt <= items[i].deadline
    ensures HasCompletedSession(EventsOf(effects), items[i], inTime)
  {
    HomeworkOpsHaveSessions(effects, k);
    H.CompletingEventIsTheOwners(items, HomeworkOps(effects), i, k);
    var e :| e in EventsOf(effects) && SessionOf(e, HomeworkOps(effects)[k].event);
    assert e.outcome == P.Completed;
  }

  lemma CompletedItemHasSession(items: seq<H.Item>, effects: seq<Effect>, i: nat)
    requires OthersAreNoSessions(effects) && i < |items| && items[i].status !in {H.Completed, H.CompletedLate}
    ensures i < |H.Run(items, HomeworkOps(effects))|
    ensures var s := H.Run(items, HomeworkOps(effects))[i].status;
            && (s == H.Completed ==> HasCompletedSession(EventsOf(effects), items[i], true))
            && (s == H.CompletedLate ==> HasCompletedSession(EventsOf(effects), items[i], false))
  {
    var hops := HomeworkOps(effects);
    H.CompletionHasWitness(items, hops, i);
    var s := H.Run(items, hops)[i].status;
    if s == H.Completed {
      var k :| H.CompletesInTime(items, hops, i, k);
      CompletingSession(items, effects, i, k, true);
    } else if s == H.CompletedLate {
      var k :| H.CompletesLate(items, hops, i, k);
      CompletingSession(items, effects, i, k, false);
    }
  }

  /** Over any run: an item that becomes COMPLETED has a distinct completed session of its family and
      child that occurred by its deadline; one that becomes COMPLETED_LATE has a completed session. */
  lemma CompletedHasCompletedSession(st: State, cfg: Config, ops: seq<Op>, i: nat)
    requires i < |st.store.homework| && st.store.homework[i].status !in {H.Completed, H.CompletedLate}
    ensures i < |Run(st, cfg, ops).store.homework|
    ensures var x, s := st.store.homework[i], Run(st, cfg, ops).store.homework[i].status;
            var events := EventsOf(Effects(cfg, ops, st.store.ledger));
            && (s == H.Completed ==> HasCompletedSession(events, x, true))
            && (s == H.CompletedLate ==> HasCompletedSession(events, x, false))
  {
    RunIsFoldOverFirsts(st, cfg, ops);
    PlayHomework(st.store, cfg, Effects(cfg, ops, st.store.ledger));
    OtherEffectsAreNoSessions(cfg, ops, st.store.ledger);
    CompletedItemHasSession(st.store.homework, Effects(cfg, ops, st.store.ledger), i);
  }

  // ---- handovers to the dispatcher ----

  lemma {:induction false} LedgerGrows(st: State, cfg: Config, ops: seq<Op>)
    ensures st.store.ledger <= Run(st, cfg, ops).store.ledger
    decreases |ops|
  {
    if ops != [] { LedgerGrows(st, cfg, ops[..|ops| - 1]); }
  }

  /** The dispatcher is called at most once per event, and only for events in the ledger. */
  lemma {:induction false} HandedOverOnce(st: State, cfg: Config, ops: seq<Op>)
    ensures var st' := Run(st, cfg, ops);
            && st.handovers <= st'.handovers
            && (forall i :: |st.handovers| <= i < |st'.handovers| ==>
                  st'.handovers[i].eventId in st'.store.ledger - st.store.ledger)
            && (forall i, j :: |st.handovers| <= i < j < |st'.handovers| ==>
                  st'.handovers[i].eventId != st'.handovers[j].eventId)
    decreases |ops|
  {
    if ops != [] {
      HandedOverOnce(st, cfg, ops[..|ops| - 1]);
      LedgerGrows(st, cfg, ops[..|ops| - 1]);
    }
  }

  function HandedAbout(handovers: seq<Handover>, k: P.TrackerKey): nat {
    if handovers == [] then 0
    else HandedAbout(handovers[..|handovers| - 1], k) + P.AlertsAbout(handovers[|handovers| - 1].alerts, k)
  }

  /** No delivery of the run dies between its commit and the dispatch. */
  predicate NoneDies(ops: seq<Op>) {
    forall i :: 0 <= i < |ops| && ops[i].Deliver? ==> ops[i].delivery.fate != DiesAfterCommit
  }

  lemma AlertsOfLast(p: P.Store, cfg: P.Config, es: seq<P.Event>, e: P.Event, k: P.TrackerKey)
    ensures P.AlertsAbout(P.Run(p, cfg, es + [e]).alerts, k)
         == P.AlertsAbout(P.Run(p, cfg, es).alerts, k) + P.AlertsAbout(P.Derive(P.Run(p, cfg, es).store, cfg, e).alerts, k)
  {
    assert (es + [e])[..|es|] == es;
    P.AlertsAboutConcat(P.Run(p, cfg, es).alerts, P.Derive(P.Run(p, cfg, es).store, cfg, e).alerts, k);
  }

  /** What one more operation hands over, at most the alerts its event raises. */
  lemma StepHandsOver(st: State, cfg: Config, op: Op, k: P.TrackerKey)
    ensures var handed := HandedAbout(Apply(st, cfg, op).handovers, k) - HandedAbout(st.handovers, k);
            var commits := op.Deliver? && Commits(st, cfg, op.delivery);
            var raised := if commits
                          then P.AlertsAbout(P.Derive(st.store.progress, cfg.progress, op.delivery.payload.value).alerts, k) else 0;
            0 <= handed <= raised && (NoneDies([op]) ==> handed == raised)
  {
    if op.Deliver? && Accepted(cfg, op.delivery) {
      var h := Handover(op.delivery.payload.value.id,
                        P.Derive(st.store.progress, cfg.progress, op.delivery.payload.value).alerts, op.delivery.goals);
      assert (st.handovers + [h])[..|st.handovers|] == st.handovers;
      assert NoneDies([op]) ==> [op][0].delivery.fate != DiesAfterCommit;
    }
  }

  lemma EventsOfSnoc(effects: seq<Effect>, x: Effect)
    ensures EventsOf(effects + [x]) == EventsOf(effects) + if x.Event? then [x.event] else []
  {
    assert (effects + [x])[..|effects|] == effects;
  }

  lemma LastEffect(cfg: Config, ops: seq<Op>, seen: set<Id>)
    requires ops != []
    ensures var op, before := ops[|ops| - 1], Effects(cfg, ops[..|ops| - 1], seen);
            EventsOf(Effects(cfg, ops, seen)) ==
              if op.Deliver? && Accepted(cfg, op.delivery) && op.delivery.fate != FailsBeforeCommit
                 && op.delivery.payload.value.id !in seen + IdsOf(before)
              then EventsOf(before) + [op.delivery.payload.value] else EventsOf(before)
  {
    var op, before := ops[|ops| - 1], Effects(cfg, ops[..|ops| - 1], seen);
    match op {
      case Deliver(x) => if x.payload.Some? { EventsOfSnoc(before, Event(x.payload.value)); }
      case SweepOverdue(now) => EventsOfSnoc(before, Other(H.Sweep(now)));
      case CreateHomework(x, now) => EventsOfSnoc(before, Other(H.Create(x, now)));
    }
  }

  /** A delivery that reaches its end hands over its alerts and goal reminders in one call, unless
      it has neither; any other delivery hands over nothing. */
  lemma DeliveryHandsOver(st: State, cfg: Config, x: Delivery)
    ensures var after := AfterDelivery(st, cfg, x).handovers;
            if Commits(st, cfg, x) && x.fate == Finishes then
              var alerts := P.Derive(st.store.progress, cfg.progress, x.payload.value).alerts;
              after == st.handovers + (if |alerts| + |x.goals| == 0 then []
                                       else [Handover(x.payload.value.id, alerts, x.goals)])
            else after == st.handovers
  {
  }

  /** The alerts handed over are at most those the distinct events raise, and all of them when no
      delivery dies between commit and dispatch. */
  lemma {:induction false} HandsOverAlertsOfFirsts(st: State, cfg: Config, ops: seq<Op>, k: P.TrackerKey)
    ensures var handed := HandedAbout(Run(st, cfg, ops).handovers, k) - HandedAbout(st.handovers, k);
            var raised := P.AlertsAbout(
                            P.Run(st.store.progress, cfg.progress, EventsOf(Effects(cfg, ops, st.store.ledger))).alerts, k);
            0 <= handed <= raised && (NoneDies(ops) ==> handed == raised)
    decreases |ops|
  {
    if ops != [] {
      var prefix, op := ops[..|ops| - 1], ops[|ops| - 1];
      var before := Effects(cfg, prefix, st.store.ledger);
      var mid := Run(st, cfg, prefix);
      HandsOverAlertsOfFirsts(st, cfg, prefix, k);
      RunIsFoldOverFirsts(st, cfg, prefix);
      PlayProgress(st.store, cfg, before);
      StepHandsOver(mid, cfg, op, k);
      LastEffect(cfg, ops, st.store.ledger);
      if op.Deliver? && op.delivery.payload.Some? {
        AlertsOfLast(st.store.progress, cfg.progress, EventsOf(before), op.delivery.payload.value, k);
      }
      assert NoneDies(ops) ==> NoneDies(prefix) && NoneDies([op]);
    }
  }

  /** End to end: from an empty tracker, however deliveries repeat, fail and die, the parent is
      alerted about a topic at most once, and only if the distinct events contain a long enough
      run of lows; if none dies after its commit, exactly then. */
  lemma ParentAlertedOnce(st: State, cfg: Config, ops: seq<Op>, k: P.TrackerKey)
    requires cfg.progress.consecutive > 0 && k.child in st.store.progress.children
    requires P.TrackerOf(st.store.progress, k) == P.Tracker(0, None)
    ensures var handed := HandedAbout(Run(st, cfg, ops).handovers, k) - HandedAbout(st.handovers, k);
            var events := EventsOf(Effects(cfg, ops, st.store.ledger));
            var struggled := P.HasLowRun(cfg.progress, P.Touches(events, k, st.store.progress.children[k.child].family));
            && 0 <= handed <= 1 && (handed == 1 ==> struggled)
            && (NoneDies(ops) ==> (handed == 1 <==> struggled))
  {
    HandsOverAlertsOfFirsts(st, cfg, ops, k);
    P.StruggleCounterIsTheTrailingRun(st.store.progress, cfg.progress, EventsOf(Effects(cfg, ops, st.store.ledger)), k);
  }

  // ---- the service ----

  class SessionEventService {
    const homework: H.HomeworkService
    const progress: P.ProgressService
    const enforceConsent: bool
    var ledger: set<Id>
    var handovers: seq<Handover>

    constructor (homework: H.HomeworkService, progress: P.ProgressService, enforceConsent: bool)
      ensures this.homework == homework && this.progress == progress && this.enforceConsent == enforceConsent
      ensures ledger == {} && handovers == []
    {
      this.homework, this.progress, this.enforceConsent := homework, progress, enforceConsent;
      ledger, handovers := {}, [];
    }

    ghost function Configured(): Config {
      Config(progress.cfg, enforceConsent)
    }

    ghost function Current(): State
      reads this, homework, progress
    {
      State(Store(ledger, homework.items, progress.State()), handovers)
    }

    /** None stands for a call that throws or dies; the queue retries it. */
    method ProcessSessionEvent(x: Delivery) returns (res: Option<Status>)
      modifies this, homework, progress
      ensures Current() == AfterDelivery(old(Current()), Configured(), x)
      ensures res == Some(Invalid) <==> x.payload.None? || !ValidEvent(x.payload.value)
      ensures res == Some(ConsentMissing) <==>
                x.payload.Some? && ValidEvent(x.payload.value) && !x.consented && enforceConsent
      ensures Accepted(Configured(), x) ==>
                res == (if x.fate == FailsBeforeCommit then None
                        else if x.payload.value.id in old(ledger) then Some(Duplicate)
                        else if x.fate == DiesAfterCommit then None else Some(Processed))
    {
      if x.payload.None? || !ValidEvent(x.payload.value) { return Some(Invalid); }
      var e := x.payload.value;
      if !x.consented && enforceConsent { return Some(ConsentMissing); }
      if x.fate == FailsBeforeCommit { return None; }
      if e.id in ledger { return Some(Duplicate); }
      ledger := ledger + {e.id};
      ApplyDerivations(e);
      var alerts := progress.DeriveFromSession(e);
      if x.fate == DiesAfterCommit { return None; }
      if alerts != [] || x.goals != [] {
        handovers := handovers + [Handover(e.id, alerts, x.goals)];
      }
      return Some(Processed);
    }

    method ApplyDerivations(e: P.Event)
      modifies homework
      ensures homework.items ==
                if HomeworkEvent(e).Some? then H.AfterEvent(old(homework.items), HomeworkEvent(e).value) else old(homework.items)
    {
      var kind := HomeworkEvent(e);
      if kind.None? { return; }
      var _ := homework.ApplyHomeworkEvent(kind.value);
    }
  }
}
