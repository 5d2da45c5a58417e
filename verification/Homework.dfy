/** The homework state machine, driven by session events and by the overdue sweep
    (src/modules/homework/homework.service.ts). */
module Homework {
  import opened Common

  datatype Status = Pending | InProgress | Overdue | Completed | CompletedLate

  datatype EventKind = StartedEvent | CompletedEvent

  datatype Item = Item(id: Id, family: Id, child: Id, subject: string, topic: string, deadline: Time, status: Status)

  /** What a session event tells the homework service. */
  datatype Event = Event(
    family: Id, child: Id, subject: string, topics: seq<string>, kind: EventKind, occurredAt: Time, ref: Option<Id>)

  predicate Unfinished(s: Status) {
    s == Pending || s == InProgress
  }

  // ---- one transition ----

  /** None: the event does not move the item. */
  function Transition(current: Status, kind: EventKind, deadline: Time, occurredAt: Time): Option<Status> {
    if current == Completed || current == CompletedLate then None
    else if kind == StartedEvent then (if current == Pending then Some(InProgress) else None)
    else if occurredAt > deadline || current == Overdue then Some(CompletedLate)
    else Some(Completed)
  }

  // ---- matching ----

  predicate IsReferred(x: Item, e: Event) {
    e.ref == Some(x.id) && x.family == e.family && x.child == e.child
  }

  predicate IsCandidate(x: Item, e: Event) {
    x.family == e.family && x.child == e.child && x.subject == e.subject && x.topic in e.topics && Unfinished(x.status)
  }

  function FindReferred(items: seq<Item>, e: Event): (i: Option<nat>)
    ensures i.Some? ==> i.value < |items| && IsReferred(items[i.value], e)
    ensures i.None? ==> forall j :: 0 <= j < |items| ==> !IsReferred(items[j], e)
  {
    if items == [] then None
    else
      var n := |items| - 1;
      var rest := FindReferred(items[..n], e);
      if rest.Some? then rest else if IsReferred(items[n], e) then Some(n) else None
  }

  /** The candidate with the earliest deadline, the first listed among equals. */
  function FindEarliest(items: seq<Item>, e: Event): (i: Option<nat>)
    ensures i.Some? ==> i.value < |items| && IsCandidate(items[i.value], e)
    ensures i.Some? ==> forall j :: 0 <= j < |items| && IsCandidate(items[j], e) ==> items[i.value].deadline <= items[j].deadline
    ensures i.None? ==> forall j :: 0 <= j < |items| ==> !IsCandidate(items[j], e)
  {
    if items == [] then None
    else
      var n := |items| - 1;
      var rest := FindEarliest(items[..n], e);
      if IsCandidate(items[n], e) && (rest.None? || items[n].deadline < items[rest.value].deadline) then Some(n) else rest
  }

  /** The item an event is about: the referred one, else the most urgent unfinished match. */
  function MatchHomework(items: seq<Item>, e: Event): Option<nat> {
    var referred := FindReferred(items, e);
    if referred.Some? then referred else FindEarliest(items, e)
  }

  // ---- the operations ----

  function AfterEvent(items: seq<Item>, e: Event): seq<Item> {
    var i := MatchHomework(items, e);
    if i.None? then items
    else
      var next := Transition(items[i.value].status, e.kind, items[i.value].deadline, e.occurredAt);
      if next.None? then items else items[i.value := items[i.value].(status := next.value)]
  }

  predicate FallsDue(x: Item, now: Time) {
    x.deadline < now && Unfinished(x.status)
  }

  function AfterSweep(items: seq<Item>, now: Time): seq<Item> {
    seq(|items|, i requires 0 <= i < |items| => if FallsDue(items[i], now) then items[i].(status := Overdue) else items[i])
  }

  /** A new item is PENDING, or OVERDUE when its deadline has passed already. */
  function AfterCreate(items: seq<Item>, x: Item, now: Time): seq<Item> {
    items + [x.(status := if x.deadline < now then Overdue else Pending)]
  }

  datatype Op =
    | SessionEvent(event: Event)
    | Sweep(now: Time)
    | Create(item: Item, now: Time)

  function Apply(items: seq<Item>, op: Op): seq<Item> {
    match op
    case SessionEvent(e) => AfterEvent(items, e)
    case Sweep(now) => AfterSweep(items, now)
    case Create(x, now) => AfterCreate(items, x, now)
  }

  function Run(items: seq<Item>, ops: seq<Op>): seq<Item>
    decreases |ops|
  {
    if ops == [] then items else Apply(Run(items, ops[..|ops| - 1]), ops[|ops| - 1])
  }

  // ---- what one event does, in full ----

  /** The event names the item, or names none of the family's and the child's and the item is an
      unfinished one on its subject and topics. */
  ghost predicate Concerns(items: seq<Item>, e: Event, i: nat) {
    && i < |items| && items[i].family == e.family && items[i].child == e.child
    && (|| e.ref == Some(items[i].id)
        || (&& (forall j :: 0 <= j < |items| && e.ref == Some(items[j].id) ==>
                  items[j].family != e.family || items[j].child != e.child)
            && items[i].subject == e.subject && items[i].topic in e.topics && items[i].status in {Pending, InProgress}))
  }

  /** The item an event is about: a named one before any other, and among the others the most
      urgent. None exactly if the event concerns none. */
  lemma MatchIsMostUrgent(items: seq<Item>, e: Event)
    ensures var i := MatchHomework(items, e);
            && (i.None? <==> forall j: nat :: !Concerns(items, e, j))
            && (i.Some? ==> Concerns(items, e, i.value))
            && (i.Some? && e.ref != Some(items[i.value].id) ==>
                  forall j: nat :: Concerns(items, e, j) ==> items[i.value].deadline <= items[j].deadline)
  {
    var i := MatchHomework(items, e);
    if FindReferred(items, e).None? {
      forall j: nat | j < |items| ensures Concerns(items, e, j) <==> IsCandidate(items[j], e) {
        assert !IsReferred(items[j], e);
        if IsCandidate(items[j], e) {
          forall h | 0 <= h < |items| && e.ref == Some(items[h].id)
            ensures items[h].family != e.family || items[h].child != e.child
          {
            assert !IsReferred(items[h], e);
          }
        }
      }
      if i.Some? { assert Concerns(items, e, i.value); }
    } else {
      assert IsReferred(items[i.value], e) && Concerns(items, e, i.value);
    }
  }

  /** A start moves a PENDING item to IN_PROGRESS and no other. */
  lemma StartMovesPending(items: seq<Item>, e: Event, i: nat)
    requires e.kind == StartedEvent && i < |items|
    ensures |AfterEvent(items, e)| == |items|
    ensures AfterEvent(items, e)[i] ==
              if MatchHomework(items, e) == Some(i) && items[i].status == Pending
              then items[i].(status := InProgress) else items[i]
  {
  }

  /** A completion ends the item it is about unless that is done: in time if it occurred by the
      deadline and the item was not OVERDUE, late otherwise. */
  lemma CompletionEndsItem(items: seq<Item>, e: Event, i: nat)
    requires e.kind == CompletedEvent && i < |items|
    ensures |AfterEvent(items, e)| == |items|
    ensures var was := items[i].status;
            AfterEvent(items, e)[i] ==
              if MatchHomework(items, e) != Some(i) || was in {Completed, CompletedLate} then items[i]
              else if e.occurredAt <= items[i].deadline && was in {Pending, InProgress} then items[i].(status := Completed)
              else items[i].(status := CompletedLate)
  {
  }

  // ---- the status only climbs ----

  function Rank(s: Status): nat {
    match s
    case Pending => 0
    case InProgress => 1
    case Overdue => 2
    case Completed => 3
    case CompletedLate => 3
  }

  /** Every change climbs, and changes nothing but the status. */
  lemma StepClimbs(items: seq<Item>, op: Op, i: nat)
    requires i < |items|
    ensures var items' := Apply(items, op);
            && |items'| >= |items|
            && items'[i] == items[i].(status := items'[i].status)
            && (items'[i].status != items[i].status ==> Rank(items'[i].status) > Rank(items[i].status))
  {
  }

  lemma {:induction false} RunGrows(items: seq<Item>, ops: seq<Op>)
    ensures |Run(items, ops)| >= |items|
    decreases |ops|
  {
    if ops != [] {
      RunGrows(items, ops[..|ops| - 1]);
      if |items| > 0 { StepClimbs(Run(items, ops[..|ops| - 1]), ops[|ops| - 1], 0); }
    }
  }

  /** How often an item changes over a run. */
  function Changes(items: seq<Item>, ops: seq<Op>, i: nat): nat
    decreases |ops|
  {
    if ops == [] then 0
    else
      var before, after := Run(items, ops[..|ops| - 1]), Run(items, ops);
      Changes(items, ops[..|ops| - 1], i) + if i < |before| && i < |after| && before[i] != after[i] then 1 else 0
  }

  /** An item climbs at least one rank a change, so it changes at most three times. */
  lemma {:induction false} AtMostThreeChanges(items: seq<Item>, ops: seq<Op>, i: nat)
    requires i < |items|
    ensures i < |Run(items, ops)|
    ensures Rank(items[i].status) + Changes(items, ops, i) <= Rank(Run(items, ops)[i].status)
    ensures Changes(items, ops, i) <= 3
    decreases |ops|
  {
    if ops != [] {
      RunGrows(items, ops[..|ops| - 1]);
      AtMostThreeChanges(items, ops[..|ops| - 1], i);
      StepClimbs(Run(items, ops[..|ops| - 1]), ops[|ops| - 1], i);
    }
  }

  // ---- completion has a witness ----

  /** Operation `k` completes the item: it is a completion event matched to it. */
  ghost predicate Completes(items: seq<Item>, ops: seq<Op>, i: nat, k: nat) {
    && k < |ops| && ops[k].SessionEvent? && ops[k].event.kind == CompletedEvent
    && MatchHomework(Run(items, ops[..k]), ops[k].event) == Some(i)
  }

  /** The step that completes an item says how. */
  lemma CompletingStep(items: seq<Item>, op: Op, i: nat)
    requires i < |items| && Rank(items[i].status) < 3
    ensures |Apply(items, op)| >= |items|
    ensures var s' := Apply(items, op)[i].status;
            && (s' == Completed <==> op.SessionEvent? && op.event.kind == CompletedEvent && MatchHomework(items, op.event) == Some(i)
                                     && op.event.occurredAt <= items[i].deadline && items[i].status != Overdue)
            && (s' == CompletedLate <==> op.SessionEvent? && op.event.kind == CompletedEvent && MatchHomework(items, op.event) == Some(i)
                                          && (op.event.occurredAt > items[i].deadline || items[i].status == Overdue))
  {
  }

  lemma PrefixOfPrefix(ops: seq<Op>, n: nat, k: nat)
    requires k <= n <= |ops|
    ensures ops[..n][..k] == ops[..k]
  {
  }

  lemma LastStepClimbs(items: seq<Item>, ops: seq<Op>, i: nat)
    requires i < |items| && ops != []
    ensures |Run(items, ops[..|ops| - 1])| >= |items| && |Run(items, ops)| >= |items|
    ensures Rank(Run(items, ops[..|ops| - 1])[i].status) <= Rank(Run(items, ops)[i].status)
  {
    RunGrows(items, ops[..|ops| - 1]);
    RunGrows(items, ops);
    StepClimbs(Run(items, ops[..|ops| - 1]), ops[|ops| - 1], i);
  }

  lemma {:induction false} RanksClimb(items: seq<Item>, ops: seq<Op>, i: nat, j: nat, n: nat)
    requires i < |items| && j <= n <= |ops|
    ensures |Run(items, ops[..j])| >= |items| && |Run(items, ops[..n])| >= |items|
    ensures Rank(Run(items, ops[..j])[i].status) <= Rank(Run(items, ops[..n])[i].status)
    decreases n
  {
    if j < n {
      RanksClimb(items, ops, i, j, n - 1);
      PrefixOfPrefix(ops, n, n - 1);
      LastStepClimbs(items, ops[..n], i);
    } else {
      RunGrows(items, ops[..j]);
    }
  }

  /** Operation `k` completes the item in time, before it was ever marked OVERDUE. */
  ghost predicate CompletesInTime(items: seq<Item>, ops: seq<Op>, i: nat, k: nat) {
    && i < |items| && Completes(items, ops, i, k) && ops[k].event.occurredAt <= items[i].deadline
    && i < |Run(items, ops[..k])| && Rank(Run(items, ops[..k])[i].status) < Rank(Overdue)
  }

  /** Operation `k` completes the item after its deadline, or after it was marked OVERDUE. */
  ghost predicate CompletesLate(items: seq<Item>, ops: seq<Op>, i: nat, k: nat) {
    && i < |items| && Completes(items, ops, i, k) && i < |Run(items, ops[..k])|
    && (ops[k].event.occurredAt > items[i].deadline || Run(items, ops[..k])[i].status == Overdue)
  }

  lemma {:induction false} DeadlineStays(items: seq<Item>, ops: seq<Op>, i: nat)
    requires i < |items|
    ensures i < |Run(items, ops)| && Run(items, ops)[i].deadline == items[i].deadline
    decreases |ops|
  {
    if ops != [] {
      DeadlineStays(items, ops[..|ops| - 1], i);
      StepClimbs(Run(items, ops[..|ops| - 1]), ops[|ops| - 1], i);
    }
  }

  /** The last operation completed the item if it was unfinished before it. */
  lemma LastCompletes(items: seq<Item>, ops: seq<Op>, i: nat)
    requires i < |items| && ops != []
    ensures |Run(items, ops[..|ops| - 1])| >= |items| && |Run(items, ops)| >= |items|
    ensures var before, after := Run(items, ops[..|ops| - 1])[i].status, Run(items, ops)[i].status;
            && (Rank(before) < 3 && after == Completed ==> CompletesInTime(items, ops, i, |ops| - 1))
            && (Rank(before) < 3 && after == CompletedLate ==> CompletesLate(items, ops, i, |ops| - 1))
            && (Rank(before) == 3 ==> after == before)
  {
    var n := |ops| - 1;
    LastStepClimbs(items, ops, i);
    DeadlineStays(items, ops[..n], i);
    StepClimbs(Run(items, ops[..n]), ops[n], i);
    if Rank(Run(items, ops[..n])[i].status) < 3 {
      CompletingStep(Run(items, ops[..n]), ops[n], i);
    }
  }

  lemma WitnessExtends(items: seq<Item>, ops: seq<Op>, n: nat, i: nat, k: nat)
    requires n <= |ops|
    ensures CompletesInTime(items, ops[..n], i, k) ==> CompletesInTime(items, ops, i, k)
    ensures CompletesLate(items, ops[..n], i, k) ==> CompletesLate(items, ops, i, k)
  {
    if k < n { PrefixOfPrefix(ops, n, k); }
  }

  /** An item that ends COMPLETED was completed by a matched event that occurred in time, and it
      was never OVERDUE before. One that ends COMPLETED_LATE was completed after its deadline or
      after it had been marked OVERDUE. */
  lemma {:induction false} CompletionHasWitness(items: seq<Item>, ops: seq<Op>, i: nat)
    requires i < |items| && Rank(items[i].status) < 3
    ensures |Run(items, ops)| >= |items|
    ensures Run(items, ops)[i].status == Completed ==> exists k :: CompletesInTime(items, ops, i, k)
    ensures Run(items, ops)[i].status == CompletedLate ==> exists k :: CompletesLate(items, ops, i, k)
    decreases |ops|
  {
    if ops != [] {
      var n := |ops| - 1;
      LastCompletes(items, ops, i);
      CompletionHasWitness(items, ops[..n], i);
      forall k ensures CompletesInTime(items, ops[..n], i, k) ==> CompletesInTime(items, ops, i, k) {
        WitnessExtends(items, ops, n, i, k);
      }
      forall k ensures CompletesLate(items, ops[..n], i, k) ==> CompletesLate(items, ops, i, k) {
        WitnessExtends(items, ops, n, i, k);
      }
    }
  }

  lemma {:induction false} OwnerStays(items: seq<Item>, ops: seq<Op>, i: nat)
    requires i < |items|
    ensures i < |Run(items, ops)|
    ensures Run(items, ops)[i].family == items[i].family && Run(items, ops)[i].child == items[i].child
    decreases |ops|
  {
    if ops != [] {
      OwnerStays(items, ops[..|ops| - 1], i);
      StepClimbs(Run(items, ops[..|ops| - 1]), ops[|ops| - 1], i);
    }
  }

  /** The event that completes an item is one of the item's family and child. */
  lemma CompletingEventIsTheOwners(items: seq<Item>, ops: seq<Op>, i: nat, k: nat)
    requires i < |items| && Completes(items, ops, i, k)
    ensures ops[k].event.family == items[i].family && ops[k].event.child == items[i].child
  {
    OwnerStays(items, ops[..k], i);
    MatchIsMostUrgent(Run(items, ops[..k]), ops[k].event);
  }

  /** Before a COMPLETED item was completed it had never been OVERDUE. */
  lemma NeverOverdueBefore(items: seq<Item>, ops: seq<Op>, i: nat, j: nat, k: nat)
    requires i < |items| && j <= k <= |ops|
    requires |Run(items, ops[..k])| >= |items| && Rank(Run(items, ops[..k])[i].status) < Rank(Overdue)
    ensures |Run(items, ops[..j])| >= |items| && Run(items, ops[..j])[i].status != Overdue
  {
    RanksClimb(items, ops, i, j, k);
  }

  // ---- who an event touches ----

  /** An event changes at most one item, of its own family and child. */
  lemma EventTouchesOneOwnItem(items: seq<Item>, e: Event, i: nat)
    requires i < |items| && AfterEvent(items, e)[i] != items[i]
    ensures items[i].family == e.family && items[i].child == e.child
    ensures forall j :: 0 <= j < |items| && j != i ==> AfterEvent(items, e)[j] == items[j]
  {
  }

  /** The sweep moves exactly the unfinished items past their deadline, and running it again at
      the same time moves nothing. */
  lemma SweepMovesTheLate(items: seq<Item>, now: Time)
    ensures var swept := AfterSweep(items, now);
            && |swept| == |items|
            && (forall i :: 0 <= i < |items| ==>
                  swept[i] == if items[i].status in {Pending, InProgress} && items[i].deadline < now
                              then items[i].(status := Overdue) else items[i])
            && AfterSweep(swept, now) == swept
  {
  }

  /** Operation `j` makes the item OVERDUE: a sweep after its deadline, or its own late creation. */
  ghost predicate BringsOverdue(items: seq<Item>, ops: seq<Op>, i: nat, j: nat) {
    && j < |ops|
    && var before := Run(items, ops[..j]);
       || (ops[j].Sweep? && i < |before| && before[i].deadline < ops[j].now)
       || (ops[j].Create? && i == |before| && ops[j].item.deadline < ops[j].now)
  }

  ghost predicate BroughtOverdue(items: seq<Item>, ops: seq<Op>, i: nat) {
    exists j: nat :: BringsOverdue(items, ops, i, j)
  }

  lemma BroughtOverdueUnfolds(items: seq<Item>, ops: seq<Op>, i: nat)
    requires ops != []
    ensures BroughtOverdue(items, ops, i) <==>
              BringsOverdue(items, ops, i, |ops| - 1) || BroughtOverdue(items, ops[..|ops| - 1], i)
  {
    var n := |ops| - 1;
    forall j: nat | j < n ensures BringsOverdue(items, ops, i, j) <==> BringsOverdue(items, ops[..n], i, j) {
      PrefixOfPrefix(ops, n, j);
    }
    if BroughtOverdue(items, ops[..n], i) {
      var j: nat :| BringsOverdue(items, ops[..n], i, j);
      assert BringsOverdue(items, ops, i, j);
    }
  }

  lemma StepGrows(items: seq<Item>, op: Op)
    ensures |Apply(items, op)| == |items| + if op.Create? then 1 else 0
  {
  }

  lemma OverdueStep(items: seq<Item>, op: Op, i: nat)
    requires i < |Apply(items, op)| && Rank(Apply(items, op)[i].status) < 3
    ensures i < |items| ==> Rank(items[i].status) < 3
    ensures Apply(items, op)[i].status == Overdue <==>
              || (i < |items| && items[i].status == Overdue)
              || (op.Sweep? && i < |items| && items[i].deadline < op.now)
              || (op.Create? && i == |items| && op.item.deadline < op.now)
  {
    if i < |items| { StepClimbs(items, op, i); }
  }

  lemma {:induction false} NotThereYet(items: seq<Item>, ops: seq<Op>, i: nat)
    requires i >= |Run(items, ops)|
    ensures i >= |items| && !BroughtOverdue(items, ops, i)
    decreases |ops|
  {
    if ops != [] {
      var n := |ops| - 1;
      StepGrows(Run(items, ops[..n]), ops[n]);
      NotThereYet(items, ops[..n], i);
      BroughtOverdueUnfolds(items, ops, i);
    }
  }

  /** An item not completed is OVERDUE exactly when it was at the start, or a sweep ran after its
      deadline, or it was created late. */
  lemma {:induction false} OverdueIffBrought(items: seq<Item>, ops: seq<Op>, i: nat)
    requires i < |Run(items, ops)| && Rank(Run(items, ops)[i].status) < 3
    ensures Run(items, ops)[i].status == Overdue <==>
              (i < |items| && items[i].status == Overdue) || BroughtOverdue(items, ops, i)
    decreases |ops|
  {
    if ops != [] {
      var n := |ops| - 1;
      var before := Run(items, ops[..n]);
      OverdueStep(before, ops[n], i);
      BroughtOverdueUnfolds(items, ops, i);
      if i < |before| {
        OverdueIffBrought(items, ops[..n], i);
      } else {
        NotThereYet(items, ops[..n], i);
      }
    }
  }

  /** A completion that occurred in time counts as late exactly when the item was OVERDUE by then:
      from the start, by an earlier sweep after its deadline, or by its late creation. */
  lemma InTimeCountsLateIffOverdue(items: seq<Item>, ops: seq<Op>, e: Event, i: nat)
    requires i < |Run(items, ops)| && Rank(Run(items, ops)[i].status) < 3
    requires e.kind == CompletedEvent && MatchHomework(Run(items, ops), e) == Some(i)
    requires e.occurredAt <= Run(items, ops)[i].deadline
    ensures |Run(items, ops + [SessionEvent(e)])| > i
    ensures Run(items, ops + [SessionEvent(e)])[i].status == CompletedLate <==>
              (i < |items| && items[i].status == Overdue) || BroughtOverdue(items, ops, i)
  {
    assert (ops + [SessionEvent(e)])[..|ops|] == ops;
    OverdueIffBrought(items, ops, i);
    CompletingStep(Run(items, ops), SessionEvent(e), i);
  }

  lemma TwoSteps(items: seq<Item>, a: Op, b: Op)
    ensures Run(items, [a, b]) == Apply(Apply(items, a), b)
  {
    assert [a, b][..1] == [a] && [a][..0] == [];
    assert Run(items, [a]) == Apply(Run(items, []), a);
  }

  /** The two orders of one sweep and one completion in time give different results. */
  lemma SweepBeforeCompletionMakesLate(x: Item, e: Event, now: Time)
    requires Unfinished(x.status) && x.deadline < now && e.occurredAt <= x.deadline
    requires IsReferred(x, e) && e.kind == CompletedEvent
    ensures Run([x], [SessionEvent(e), Sweep(now)]) == [x.(status := Completed)]
    ensures Run([x], [Sweep(now), SessionEvent(e)]) == [x.(status := CompletedLate)]
  {
    TwoSteps([x], SessionEvent(e), Sweep(now));
    TwoSteps([x], Sweep(now), SessionEvent(e));
    assert AfterEvent([x], e) == [x.(status := Completed)];
    assert AfterSweep([x], now) == [x.(status := Overdue)];
  }

  // ---- the service ----

  class HomeworkService {
    var items: seq<Item>

    method ApplyHomeworkEvent(e: Event) returns (moved: bool)
      modifies this
      ensures items == AfterEvent(old(items), e) && (moved <==> items != old(items))
    {
      var i := MatchHomework(items, e);
      if i.None? { return false; }
      var item := items[i.value];
      var next := Transition(item.status, e.kind, item.deadline, e.occurredAt);
      if next.None? || next.value == item.status { return false; }
      items := items[i.value := item.(status := next.value)];
      assert items[i.value] != item;
      return true;
    }

    /** One conditional update over the table; returns how many items moved. */
    method SweepOverdueHomework(now: Time) returns (count: nat)
      modifies this
      ensures items == AfterSweep(old(items), now)
      ensures count == |set i | 0 <= i < |old(items)| && items[i] != old(items)[i]|
    {
      ghost var start := items;
      var late := set i | 0 <= i < |items| && FallsDue(items[i], now);
      count := |late|;
      items := AfterSweep(items, now);
      assert late == set i | 0 <= i < |start| && items[i] != start[i];
    }

    /** None stands for the 404 of a child that is not the family's. */
    method CreateHomework(x: Item, childInFamily: bool, now: Time) returns (created: Option<Item>)
      modifies this
      ensures created.Some? <==> childInFamily
      ensures items == if childInFamily then AfterCreate(old(items), x, now) else old(items)
      ensures created.Some? ==>
                && items == old(items) + [created.value]
                && created.value == x.(status := if x.deadline < now then Overdue else Pending)
    {
      if !childInFamily { return None; }
      var item := x.(status := if x.deadline < now then Overdue else Pending);
      items := items + [item];
      return Some(item);
    }
  }
}
