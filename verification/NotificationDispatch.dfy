/** The central notification dispatcher and its delivery worker
    (src/modules/notifications/notifications.service.ts, src/jobs/notifications.worker.ts).

    One `BuildAndDispatch` call, one delivery attempt and one exhausted job are each a single
    serialised step on the notification table and the queue of outstanding delivery jobs. */
module NotificationDispatch {
  import opened Common
  import opened ReminderCatalog

  datatype Recipient = ToParent | ToChild
  datatype Channel = Push | Email | WhatsApp
  datatype Status = Pending | Sent | Failed | Suppressed | DeadLettered

  datatype Intent = Intent(
    familyId: string,
    childId: Option<string>,
    recipient: Recipient,
    kind: Option<ReminderType>,
    channels: seq<Channel>,
    triggerTime: Time,
    countsAgainstCap: bool)

  datatype Row = Row(
    familyId: string,
    childId: Option<string>,
    recipient: Recipient,
    kind: Option<ReminderType>,
    priorityRank: nat,
    channels: seq<Channel>,
    capDay: Option<int>,
    countsAgainstCap: bool,
    status: Status,
    sentAt: Option<Time>,
    attempts: nat)

  /** The columns of the unique index (childId, capDay, type). */
  datatype Key = Key(childId: string, day: int, kind: ReminderType)

  /** A delivery job; `id` is the position of its row, which is never deleted here. */
  datatype Job = Job(id: nat, channel: Channel)

  datatype Store = Store(rows: seq<Row>, jobs: set<Job>)

  const MAX_SAFE_INTEGER: nat := 9007199254740991

  /** The Riyadh civil day an instant falls on, as a day number instead of a date string. */
  function CapDay(now: Time, offsetMinutes: int): int {
    (now + offsetMinutes * 60000) / DAY_MS
  }

  // ---- one insert ----

  /** SQL treats NULLs in a unique index as distinct, so only full keys can collide. */
  function KeyOf(r: Row): Option<Key> {
    if r.childId.Some? && r.capDay.Some? && r.kind.Some?
    then Some(Key(r.childId.value, r.capDay.value, r.kind.value))
    else None
  }

  /** The status stored under each full key. */
  function Keyed(rows: seq<Row>): map<Key, Status> {
    if rows == [] then map[]
    else
      var last := rows[|rows| - 1];
      var m := Keyed(rows[..|rows| - 1]);
      match KeyOf(last) case Some(k) => m[k := last.status] case None => m
  }

  function NewRow(i: Intent, capDay: Option<int>, status: Status): Row {
    Row(i.familyId, i.childId, i.recipient, i.kind,
        if i.kind.Some? then PriorityRank(i.kind.value) else 0,
        i.channels, capDay, i.countsAgainstCap && i.childId.Some?, status, None, 0)
  }

  predicate Collides(rows: seq<Row>, r: Row) {
    KeyOf(r).Some? && KeyOf(r).value in Keyed(rows)
  }

  /** WhatsApp is not deliverable yet and gets no job. */
  function JobsFor(id: nat, channels: seq<Channel>): set<Job> {
    set c | c in channels && c != WhatsApp :: Job(id, c)
  }

  /** Inserts the row unless it collides; a PENDING row also enqueues its jobs. */
  function Put(st: Store, i: Intent, capDay: Option<int>, status: Status): Store {
    var r := NewRow(i, capDay, status);
    if Collides(st.rows, r) then st
    else Store(st.rows + [r],
               if status == Pending then st.jobs + JobsFor(|st.rows|, i.channels) else st.jobs)
  }

  // ---- one dispatch ----

  datatype Tally = Tally(st: Store, delivered: nat, suppressed: nat)

  predicate Capped(i: Intent) {
    i.countsAgainstCap && i.childId.Some?
  }

  function CappedOf(intents: seq<Intent>): (r: seq<Intent>)
    ensures forall i :: i in r <==> i in intents && Capped(i)
  {
    if intents == [] then []
    else (if Capped(intents[0]) then [intents[0]] else []) + CappedOf(intents[1..])
  }

  function UncappedOf(intents: seq<Intent>): (r: seq<Intent>)
    ensures forall i :: i in r <==> i in intents && !Capped(i)
  {
    if intents == [] then []
    else (if Capped(intents[0]) then [] else [intents[0]]) + UncappedOf(intents[1..])
  }

  function PutUncapped(t: Tally, intents: seq<Intent>): Tally
    decreases intents
  {
    if intents == [] then t
    else
      var st := Put(t.st, intents[0], None, Pending);
      PutUncapped(Tally(st, t.delivered + |st.rows| - |t.st.rows|, t.suppressed), intents[1..])
  }

  predicate Live(r: Row, childId: string, day: int) {
    && r.childId == Some(childId) && r.capDay == Some(day) && r.countsAgainstCap
    && (r.status == Pending || r.status == Sent)
  }

  /** The rows already counted for a child on a day. */
  function LiveCount(rows: seq<Row>, childId: string, day: int): nat {
    if rows == [] then 0
    else LiveCount(rows[..|rows| - 1], childId, day)
         + (if Live(rows[|rows| - 1], childId, day) then 1 else 0)
  }

  function Budget(rows: seq<Row>, childId: string, day: int, cap: nat): nat {
    Max(0, cap - LiveCount(rows, childId, day))
  }

  function IntentRank(i: Intent): nat {
    if i.kind.Some? then PriorityRank(i.kind.value) else MAX_SAFE_INTEGER
  }

  predicate NotAfter(a: Intent, b: Intent) {
    IntentRank(a) < IntentRank(b) || (IntentRank(a) == IntentRank(b) && a.triggerTime <= b.triggerTime)
  }

  ghost predicate Ordered(s: seq<Intent>) {
    forall i, j :: 0 <= i < j < |s| ==> NotAfter(s[i], s[j])
  }

  function Insert(x: Intent, s: seq<Intent>): (r: seq<Intent>)
    ensures multiset(r) == multiset(s) + multiset{x}
  {
    if s == [] then [x]
    else if NotAfter(x, s[0]) then [x] + s
    else
      assert s == [s[0]] + s[1..];
      [s[0]] + Insert(x, s[1..])
  }

  lemma {:induction false} InsertKeepsOrder(x: Intent, s: seq<Intent>)
    requires Ordered(s)
    ensures Ordered(Insert(x, s))
    decreases s
  {
    if s != [] && !NotAfter(x, s[0]) {
      InsertKeepsOrder(x, s[1..]);
      var r := Insert(x, s[1..]);
      forall j | 0 <= j < |r|
        ensures NotAfter(s[0], r[j])
      {
        assert r[j] in multiset(r);
        assert r[j] == x || r[j] in s[1..];
      }
    }
  }

  /** The stable sort of the source: rank first, then earliest trigger. */
  function SortByPriority(s: seq<Intent>): (r: seq<Intent>)
    ensures multiset(r) == multiset(s)
    ensures Ordered(r)
  {
    if s == [] then []
    else
      assert s == [s[0]] + s[1..];
      InsertKeepsOrder(s[0], SortByPriority(s[1..]));
      Insert(s[0], SortByPriority(s[1..]))
  }

  /** Lower rank first, an untyped intent after every typed one, and the earlier trigger first among
      equals. */
  lemma NotAfterIsRankThenTime(a: Intent, b: Intent)
    requires NotAfter(a, b)
    ensures a.kind.Some? && b.kind.Some? ==> PriorityRank(a.kind.value) <= PriorityRank(b.kind.value)
    ensures a.kind.None? ==> b.kind.None?
    ensures a.kind == b.kind ==> a.triggerTime <= b.triggerTime
  {
  }

  /** The greedy loop over one child's ordered intents. */
  function Greedy(t: Tally, day: int, ordered: seq<Intent>, budget: nat): Tally
    decreases ordered
  {
    if ordered == [] then t
    else if budget > 0 then
      var st := Put(t.st, ordered[0], Some(day), Pending);
      var n := |st.rows| - |t.st.rows|;
      Greedy(Tally(st, t.delivered + n, t.suppressed), day, ordered[1..], budget - n)
    else
      var st := Put(t.st, ordered[0], Some(day), Suppressed);
      Greedy(Tally(st, t.delivered, t.suppressed + 1), day, ordered[1..], budget)
  }

  function ForChild(intents: seq<Intent>, childId: string): (r: seq<Intent>)
    ensures forall i :: i in r <==> i in intents && i.childId == Some(childId)
  {
    if intents == [] then []
    else (if intents[0].childId == Some(childId) then [intents[0]] else []) + ForChild(intents[1..], childId)
  }

  /** The children of a batch in the order they are first met. */
  function ChildrenOf(intents: seq<Intent>): (r: seq<string>)
    ensures forall i, j :: 0 <= i < j < |r| ==> r[i] != r[j]
  {
    if intents == [] then []
    else
      var n := |intents| - 1;
      var front := ChildrenOf(intents[..n]);
      if intents[n].childId.Some? && intents[n].childId.value !in front
      then front + [intents[n].childId.value]
      else front
  }

  lemma {:induction false} ChildrenOfHas(intents: seq<Intent>, i: Intent)
    requires i in intents && i.childId.Some?
    ensures i.childId.value in ChildrenOf(intents)
    decreases intents
  {
    var n := |intents| - 1;
    assert intents == intents[..n] + [intents[n]];
    if i in intents[..n] { ChildrenOfHas(intents[..n], i); }
  }

  function DispatchChild(t: Tally, day: int, cap: nat, childId: string, capped: seq<Intent>): Tally {
    Greedy(t, day, SortByPriority(ForChild(capped, childId)), Budget(t.st.rows, childId, day, cap))
  }

  function DispatchChildren(t: Tally, day: int, cap: nat, children: seq<string>, capped: seq<Intent>): Tally
    decreases children
  {
    if children == [] then t
    else DispatchChildren(DispatchChild(t, day, cap, children[0], capped), day, cap, children[1..], capped)
  }

  function Dispatch(st: Store, intents: seq<Intent>, day: int, cap: nat): Tally {
    var capped := CappedOf(intents);
    DispatchChildren(PutUncapped(Tally(st, 0, 0), UncappedOf(intents)), day, cap, ChildrenOf(capped), capped)
  }

  // ---- the simple specification: the lowest-ranked unseen types win ----

  function Lower(unseen: set<ReminderType>, t: ReminderType): set<ReminderType> {
    set u | u in unseen && PriorityRank(u) < PriorityRank(t)
  }

  function Decide(unseen: set<ReminderType>, t: ReminderType, budget: nat): Status {
    if |Lower(unseen, t)| < budget then Pending else Suppressed
  }

  /** The (child, type) pairs a batch competes with. */
  function Pairs(intents: seq<Intent>): set<(string, ReminderType)> {
    set i | i in intents && Capped(i) && i.kind.Some? :: (i.childId.value, i.kind.value)
  }

  function Fresh(m: map<Key, Status>, pairs: set<(string, ReminderType)>, childId: string, day: int): set<ReminderType> {
    set p | p in pairs && p.0 == childId && Key(childId, day, p.1) !in m :: p.1
  }

  function FreshKeys(m: map<Key, Status>, pairs: set<(string, ReminderType)>, day: int): set<Key> {
    set p | p in pairs && Key(p.0, day, p.1) !in m :: Key(p.0, day, p.1)
  }

  /** The statuses a batch adds: a function of the set of its pairs, hence of no order. */
  function Decisions(rows: seq<Row>, pairs: set<(string, ReminderType)>, day: int, cap: nat): map<Key, Status> {
    var m := Keyed(rows);
    map k | k in FreshKeys(m, pairs, day) ::
      Decide(Fresh(m, pairs, k.childId, day), k.kind, Budget(rows, k.childId, day, cap))
  }

  predicate Typed(intents: seq<Intent>) {
    forall i :: i in intents && Capped(i) ==> i.kind.Some?
  }

  // ---- the greedy loop refines it ----

  lemma KeyedSnoc(rows: seq<Row>, r: Row)
    ensures Keyed(rows + [r]) ==
            match KeyOf(r) case Some(k) => Keyed(rows)[k := r.status] case None => Keyed(rows)
  {
    assert (rows + [r])[..|rows|] == rows;
  }

  lemma LiveCountSnoc(rows: seq<Row>, r: Row, childId: string, day: int)
    ensures LiveCount(rows + [r], childId, day)
         == LiveCount(rows, childId, day) + (if Live(r, childId, day) then 1 else 0)
  {
    assert (rows + [r])[..|rows|] == rows;
  }

  lemma PutKeys(st: Store, i: Intent, day: int, status: Status)
    requires Capped(i) && i.kind.Some?
    ensures var k := Key(i.childId.value, day, i.kind.value);
            var st' := Put(st, i, Some(day), status);
            if k in Keyed(st.rows) then st' == st
            else |st'.rows| == |st.rows| + 1 && Keyed(st'.rows) == Keyed(st.rows)[k := status]
  {
    KeyedSnoc(st.rows, NewRow(i, Some(day), status));
  }

  lemma PutLive(st: Store, i: Intent, day: int, status: Status, childId: string, d: int)
    requires Capped(i)
    ensures var st' := Put(st, i, Some(day), status);
            LiveCount(st'.rows, childId, d) == LiveCount(st.rows, childId, d)
              + (if i.childId.value == childId && d == day && (status == Pending || status == Sent)
                 then |st'.rows| - |st.rows| else 0)
  {
    LiveCountSnoc(st.rows, NewRow(i, Some(day), status), childId, d);
  }

  /** The types among one child's intents that have no row yet. */
  function FreshIn(m: map<Key, Status>, s: seq<Intent>, childId: string, day: int): set<ReminderType> {
    set i | i in s && i.kind.Some? && Key(childId, day, i.kind.value) !in m :: i.kind.value
  }

  ghost predicate OneChild(s: seq<Intent>, childId: string) {
    forall i :: i in s ==> i.countsAgainstCap && i.childId == Some(childId)
  }

  /** Serving the lowest-ranked fresh type leaves the same contest among the others. */
  lemma DecideAfterLowest(unseen: set<ReminderType>, h: ReminderType, t: ReminderType, budget: nat)
    requires h in unseen && t in unseen
    requires forall u :: u in unseen ==> PriorityRank(h) <= PriorityRank(u)
    ensures t == h ==> Decide(unseen, t, budget) == if budget > 0 then Pending else Suppressed
    ensures t != h && budget > 0 ==> Decide(unseen, t, budget) == Decide(unseen - {h}, t, budget - 1)
    ensures budget == 0 ==> Decide(unseen, t, budget) == Suppressed
  {
    if t == h {
      assert Lower(unseen, h) == {};
    } else {
      assert PriorityRank(h) < PriorityRank(t);
      assert Lower(unseen, t) == Lower(unseen - {h}, t) + {h};
    }
  }

  /** The unseen types once the head of an ordered list was handled. */
  lemma UnseenAfterHead(m: map<Key, Status>, s: seq<Intent>, childId: string, day: int, status: Status)
    requires Ordered(s) && OneChild(s, childId) && Typed(s) && s != []
    ensures var h := s[0].kind.value;
            var unseen := FreshIn(m, s, childId, day);
            && (Key(childId, day, h) in m ==> FreshIn(m, s[1..], childId, day) == unseen)
            && (Key(childId, day, h) !in m ==>
                  && h in unseen
                  && FreshIn(m[Key(childId, day, h) := status], s[1..], childId, day) == unseen - {h}
                  && forall u :: u in unseen ==> PriorityRank(h) <= PriorityRank(u))
  {
    assert s == [s[0]] + s[1..];
    assert s[0] in s;
    assert forall i :: i in s ==> i == s[0] || i in s[1..];
    forall i | i in s
      ensures PriorityRank(s[0].kind.value) <= PriorityRank(i.kind.value)
    {
      var j :| 0 <= j < |s| && s[j] == i;
      if j > 0 { assert NotAfter(s[0], s[j]); }
    }
  }

  function HeadTally(t: Tally, day: int, h: Intent, budget: nat): Tally {
    if budget > 0 then
      var st := Put(t.st, h, Some(day), Pending);
      Tally(st, t.delivered + |st.rows| - |t.st.rows|, t.suppressed)
    else Tally(Put(t.st, h, Some(day), Suppressed), t.delivered, t.suppressed + 1)
  }

  lemma RestIsOrdered(s: seq<Intent>, childId: string)
    requires Ordered(s) && OneChild(s, childId) && Typed(s) && s != []
    ensures Ordered(s[1..]) && OneChild(s[1..], childId) && Typed(s[1..])
  {
  }

  /** What the head of an ordered list does to the keys, and what it leaves unseen. */
  lemma HeadKeys(t: Tally, day: int, s: seq<Intent>, budget: nat, childId: string)
    requires Ordered(s) && OneChild(s, childId) && Typed(s) && s != []
    ensures var m, t1, h := Keyed(t.st.rows), HeadTally(t, day, s[0], budget), s[0].kind.value;
            var m1, n := Keyed(t1.st.rows), |t1.st.rows| - |t.st.rows|;
            var unseen, unseen1 := FreshIn(m, s, childId, day), FreshIn(m1, s[1..], childId, day);
            && n == (if Key(childId, day, h) in m then 0 else 1)
            && (n == 0 ==> m1 == m && unseen1 == unseen)
            && (n == 1 ==>
                  && m1 == m[Key(childId, day, h) := if budget > 0 then Pending else Suppressed]
                  && h in unseen && unseen1 == unseen - {h}
                  && forall u :: u in unseen ==> PriorityRank(h) <= PriorityRank(u))
  {
    var status := if budget > 0 then Pending else Suppressed;
    assert s[0] in s;
    PutKeys(t.st, s[0], day, status);
    UnseenAfterHead(Keyed(t.st.rows), s, childId, day, status);
  }

  /** From `m` to `m'` exactly the unseen types of the child got a status, the specified one. */
  predicate Decided(m: map<Key, Status>, m': map<Key, Status>, unseen: set<ReminderType>, budget: nat, c: string, day: int, k: Key) {
    var added := k.childId == c && k.day == day && k.kind in unseen;
    && (k in m' <==> k in m || added)
    && (k in m ==> k in m' && m'[k] == m[k])
    && (added ==> k in m' && m'[k] == Decide(unseen, k.kind, budget))
  }

  /** Serving the lowest unseen type first comes to the same. */
  lemma DecidedAfterHead(m: map<Key, Status>, m': map<Key, Status>, unseen: set<ReminderType>, h: ReminderType,
                         budget: nat, c: string, day: int, k: Key)
    requires Key(c, day, h) !in m && h in unseen && forall u :: u in unseen ==> PriorityRank(h) <= PriorityRank(u)
    requires Decided(m[Key(c, day, h) := if budget > 0 then Pending else Suppressed], m', unseen - {h},
                     if budget > 0 then budget - 1 else budget, c, day, k)
    ensures Decided(m, m', unseen, budget, c, day, k)
  {
    if k.kind in unseen { DecideAfterLowest(unseen, h, k.kind, budget); }
    if k.kind in unseen - {h} && budget == 0 { assert Decide(unseen - {h}, k.kind, 0) == Suppressed; }
  }

  /** The greedy loop over an ordered list gives every fresh type the specified status and
      changes no other key. */
  lemma {:induction false} GreedyDecides(t: Tally, day: int, s: seq<Intent>, budget: nat, childId: string, k: Key)
    requires Ordered(s) && OneChild(s, childId) && Typed(s)
    ensures Decided(Keyed(t.st.rows), Keyed(Greedy(t, day, s, budget).st.rows),
                    FreshIn(Keyed(t.st.rows), s, childId, day), budget, childId, day, k)
    decreases s
  {
    if s != [] {
      RestIsOrdered(s, childId);
      HeadKeys(t, day, s, budget, childId);
      var m, t1, h := Keyed(t.st.rows), HeadTally(t, day, s[0], budget), s[0].kind.value;
      var n := |t1.st.rows| - |t.st.rows|;
      GreedyDecides(t1, day, s[1..], if budget > 0 then budget - n else budget, childId, k);
      if n == 1 {
        DecidedAfterHead(m, Keyed(Greedy(t, day, s, budget).st.rows), FreshIn(m, s, childId, day), h, budget, childId, day, k);
      }
    }
  }

  /** What the head of an ordered list adds, and what it leaves to the rest. */
  lemma HeadCounts(t: Tally, day: int, s: seq<Intent>, budget: nat, childId: string)
    requires Ordered(s) && OneChild(s, childId) && Typed(s) && s != []
    ensures var t1 := HeadTally(t, day, s[0], budget);
            var n := |t1.st.rows| - |t.st.rows|;
            var left := if budget > 0 then budget - n else budget;
            && 0 <= n <= 1 && left >= 0
            && Min(budget, |FreshIn(Keyed(t.st.rows), s, childId, day)|)
                 == t1.delivered - t.delivered + Min(left, |FreshIn(Keyed(t1.st.rows), s[1..], childId, day)|)
            && LiveCount(t1.st.rows, childId, day) - LiveCount(t.st.rows, childId, day) == t1.delivered - t.delivered
  {
    var status := if budget > 0 then Pending else Suppressed;
    PutKeys(t.st, s[0], day, status);
    PutLive(t.st, s[0], day, status, childId, day);
    UnseenAfterHead(Keyed(t.st.rows), s, childId, day, status);
  }

  /** It delivers min(budget, fresh types) rows, which is also how much the counted total grows. */
  lemma {:induction false} GreedyCounts(t: Tally, day: int, s: seq<Intent>, budget: nat, childId: string)
    requires Ordered(s) && OneChild(s, childId) && Typed(s)
    ensures var n := Min(budget, |FreshIn(Keyed(t.st.rows), s, childId, day)|);
            var t' := Greedy(t, day, s, budget);
            && t'.delivered == t.delivered + n
            && LiveCount(t'.st.rows, childId, day) == LiveCount(t.st.rows, childId, day) + n
    decreases s
  {
    if s == [] {
      assert FreshIn(Keyed(t.st.rows), s, childId, day) == {};
    } else {
      HeadCounts(t, day, s, budget, childId);
      RestIsOrdered(s, childId);
      var t1 := HeadTally(t, day, s[0], budget);
      var n := |t1.st.rows| - |t.st.rows|;
      GreedyCounts(t1, day, s[1..], if budget > 0 then budget - n else budget, childId);
    }
  }

  /** It never takes a child past its budget and leaves the other children and days alone. */
  lemma {:induction false} GreedyStaysInBudget(t: Tally, day: int, s: seq<Intent>, budget: nat,
                                               childId: string, other: string, d: int)
    requires OneChild(s, childId)
    ensures var before, after := LiveCount(t.st.rows, other, d), LiveCount(Greedy(t, day, s, budget).st.rows, other, d);
            before <= after <= before + (if other == childId && d == day then budget else 0)
    decreases s
  {
    if s != [] {
      PutLive(t.st, s[0], day, if budget > 0 then Pending else Suppressed, other, d);
      var t1 := HeadTally(t, day, s[0], budget);
      var n := |t1.st.rows| - |t.st.rows|;
      GreedyStaysInBudget(t1, day, s[1..], if budget > 0 then budget - n else budget, childId, other, d);
    }
  }

  // ---- a whole dispatch refines the specification ----

  lemma SortKeepsElements(s: seq<Intent>, x: Intent)
    ensures x in SortByPriority(s) <==> x in s
  {
    assert x in multiset(SortByPriority(s)) <==> x in multiset(s);
  }

  /** What the ordered list of one child looks like. */
  lemma OrderedListOfChild(capped: seq<Intent>, childId: string)
    requires forall i :: i in capped ==> Capped(i)
    ensures var s := SortByPriority(ForChild(capped, childId));
            && Ordered(s) && OneChild(s, childId)
            && (Typed(capped) ==> Typed(s))
            && forall m, day :: FreshIn(m, s, childId, day) == Fresh(m, Pairs(capped), childId, day)
  {
    var s := SortByPriority(ForChild(capped, childId));
    forall x ensures x in s <==> x in capped && x.childId == Some(childId) {
      SortKeepsElements(ForChild(capped, childId), x);
    }
    forall m, day
      ensures FreshIn(m, s, childId, day) == Fresh(m, Pairs(capped), childId, day)
    {
      forall k | k in Fresh(m, Pairs(capped), childId, day) ensures k in FreshIn(m, s, childId, day) {
        assert (childId, k) in Pairs(capped);
      }
      forall k | k in FreshIn(m, s, childId, day) ensures k in Fresh(m, Pairs(capped), childId, day) {
        assert (childId, k) in Pairs(capped);
      }
    }
  }

  /** The batch decides each key by its own child's contest, judged on the table before it. */
  lemma {:induction false} ChildrenDecide(t: Tally, day: int, cap: nat, children: seq<string>, capped: seq<Intent>, k: Key)
    requires forall i :: i in capped ==> Capped(i)
    requires Typed(capped)
    requires forall i, j :: 0 <= i < j < |children| ==> children[i] != children[j]
    ensures var m := Keyed(t.st.rows);
            var m' := Keyed(DispatchChildren(t, day, cap, children, capped).st.rows);
            var unseen := Fresh(m, Pairs(capped), k.childId, day);
            var added := k.day == day && k.childId in children && k.kind in unseen;
            && (k in m' <==> k in m || added)
            && (k in m ==> m'[k] == m[k])
            && (added ==> m'[k] == Decide(unseen, k.kind, Budget(t.st.rows, k.childId, day, cap)))
    decreases children
  {
    if children != [] {
      var c := children[0];
      var s := SortByPriority(ForChild(capped, c));
      var budget := Budget(t.st.rows, c, day, cap);
      var t1 := DispatchChild(t, day, cap, c, capped);
      OrderedListOfChild(capped, c);
      GreedyDecides(t, day, s, budget, c, k);
      ChildrenDecide(t1, day, cap, children[1..], capped, k);
      if k.childId != c {
        GreedyStaysInBudget(t, day, s, budget, c, k.childId, day);
        forall kind ensures Key(k.childId, day, kind) in Keyed(t1.st.rows) <==> Key(k.childId, day, kind) in Keyed(t.st.rows) {
          GreedyDecides(t, day, s, budget, c, Key(k.childId, day, kind));
        }
        assert Fresh(Keyed(t1.st.rows), Pairs(capped), k.childId, day) == Fresh(Keyed(t.st.rows), Pairs(capped), k.childId, day);
      }
    }
  }

  lemma {:induction false} UncappedOnlyAppends(t: Tally, intents: seq<Intent>)
    requires forall i :: i in intents ==> !Capped(i)
    ensures var t' := PutUncapped(t, intents);
            && t.st.rows <= t'.st.rows
            && |t'.st.rows| == |t.st.rows| + |intents|
            && t'.delivered == t.delivered + |intents|
            && t'.suppressed == t.suppressed
            && Keyed(t'.st.rows) == Keyed(t.st.rows)
            && forall c, d :: LiveCount(t'.st.rows, c, d) == LiveCount(t.st.rows, c, d)
    decreases intents
  {
    if intents != [] {
      var r := NewRow(intents[0], None, Pending);
      KeyedSnoc(t.st.rows, r);
      forall c, d ensures LiveCount(t.st.rows + [r], c, d) == LiveCount(t.st.rows, c, d) {
        LiveCountSnoc(t.st.rows, r, c, d);
      }
      var st := Put(t.st, intents[0], None, Pending);
      UncappedOnlyAppends(Tally(st, t.delivered + 1, t.suppressed), intents[1..]);
    }
  }

  lemma CappedPairs(intents: seq<Intent>)
    ensures Pairs(CappedOf(intents)) == Pairs(intents)
  {
    forall p | p in Pairs(intents) ensures p in Pairs(CappedOf(intents)) {
      var i :| i in intents && Capped(i) && i.kind.Some? && p == (i.childId.value, i.kind.value);
      assert i in CappedOf(intents);
    }
    forall p | p in Pairs(CappedOf(intents)) ensures p in Pairs(intents) {
      var i :| i in CappedOf(intents) && i.kind.Some? && p == (i.childId.value, i.kind.value);
      assert i in intents && Capped(i);
    }
  }

  lemma FreshKeyIsFreshType(m: map<Key, Status>, capped: seq<Intent>, day: int, k: Key)
    requires forall i :: i in capped ==> Capped(i)
    ensures k in FreshKeys(m, Pairs(capped), day) <==>
            k.day == day && k.childId in ChildrenOf(capped) && k.kind in Fresh(m, Pairs(capped), k.childId, day)
  {
    if k in FreshKeys(m, Pairs(capped), day) {
      assert (k.childId, k.kind) in Pairs(capped);
    }
    if k.day == day && k.kind in Fresh(m, Pairs(capped), k.childId, day) {
      assert (k.childId, k.kind) in Pairs(capped);
      var i :| i in capped && i.kind.Some? && (k.childId, k.kind) == (i.childId.value, i.kind.value);
    }
    forall i | i in capped ensures i.childId.value in ChildrenOf(capped) { ChildrenOfHas(capped, i); }
  }

  lemma DispatchDecides(st: Store, intents: seq<Intent>, day: int, cap: nat, k: Key)
    requires Typed(intents)
    ensures var m := Keyed(st.rows);
            var m' := Keyed(Dispatch(st, intents, day, cap).st.rows);
            var added := k in FreshKeys(m, Pairs(intents), day);
            && (k in m' <==> k in m || added)
            && (k in m ==> m'[k] == m[k])
            && (added ==> m'[k] == Decide(Fresh(m, Pairs(intents), k.childId, day), k.kind,
                                          Budget(st.rows, k.childId, day, cap)))
  {
    var capped := CappedOf(intents);
    var t0 := PutUncapped(Tally(st, 0, 0), UncappedOf(intents));
    UncappedOnlyAppends(Tally(st, 0, 0), UncappedOf(intents));
    CappedPairs(intents);
    ChildrenDecide(t0, day, cap, ChildrenOf(capped), capped, k);
    FreshKeyIsFreshType(Keyed(st.rows), capped, day, k);
  }

  /** A dispatch of typed intents adds exactly the specified keys with the specified statuses:
      per child the lowest-ranked types without a row are PENDING up to the remaining budget,
      the others SUPPRESSED, and every existing key keeps its status. */
  lemma DispatchRefinesTopK(st: Store, intents: seq<Intent>, day: int, cap: nat)
    requires Typed(intents)
    ensures Keyed(Dispatch(st, intents, day, cap).st.rows)
         == Keyed(st.rows) + Decisions(st.rows, Pairs(intents), day, cap)
  {
    var m' := Keyed(Dispatch(st, intents, day, cap).st.rows);
    var d := Decisions(st.rows, Pairs(intents), day, cap);
    forall k
      ensures k in m' <==> k in Keyed(st.rows) + d
      ensures k in m' ==> m'[k] == (Keyed(st.rows) + d)[k]
    {
      DispatchDecides(st, intents, day, cap, k);
    }
  }

  /** The statuses do not depend on the order of the intents or of the children, nor on
      repeated intents: only on which (child, type) pairs compete. */
  lemma DispatchIgnoresOrder(st: Store, intents: seq<Intent>, others: seq<Intent>, day: int, cap: nat)
    requires Typed(intents) && multiset(intents) == multiset(others)
    ensures Keyed(Dispatch(st, intents, day, cap).st.rows) == Keyed(Dispatch(st, others, day, cap).st.rows)
  {
    assert forall i :: i in intents <==> i in multiset(intents);
    assert forall i :: i in others <==> i in multiset(others);
    assert Pairs(intents) == Pairs(others);
    DispatchRefinesTopK(st, intents, day, cap);
    DispatchRefinesTopK(st, others, day, cap);
  }

  function Winners(unseen: set<ReminderType>, budget: nat): set<ReminderType> {
    set t | t in unseen && Decide(unseen, t, budget) == Pending
  }

  lemma {:induction false} LowestType(unseen: set<ReminderType>) returns (h: ReminderType)
    requires unseen != {}
    ensures h in unseen && forall u :: u in unseen ==> PriorityRank(h) <= PriorityRank(u)
    decreases unseen
  {
    h :| h in unseen;
    if unseen != {h} {
      var l := LowestType(unseen - {h});
      if PriorityRank(l) < PriorityRank(h) { h := l; }
    }
  }

  lemma WinnersAfterLowest(unseen: set<ReminderType>, h: ReminderType, budget: nat)
    requires h in unseen && forall u :: u in unseen ==> PriorityRank(h) <= PriorityRank(u)
    requires budget > 0
    ensures Winners(unseen, budget) == Winners(unseen - {h}, budget - 1) + {h}
  {
    forall t | t in unseen
      ensures t in Winners(unseen, budget) <==> t in Winners(unseen - {h}, budget - 1) + {h}
    {
      DecideAfterLowest(unseen, h, t, budget);
    }
  }

  lemma {:induction false} WinnerCount(unseen: set<ReminderType>, budget: nat) returns (w: set<ReminderType>)
    ensures w == Winners(unseen, budget) && |w| == Min(budget, |unseen|)
    decreases budget
  {
    w := {};
    if unseen == {} {
    } else if budget == 0 {
      assert forall t :: t in Winners(unseen, budget) ==> false;
    } else {
      var h := LowestType(unseen);
      var v := WinnerCount(unseen - {h}, budget - 1);
      assert v <= unseen - {h};
      WinnersAfterLowest(unseen, h, budget);
      w := v + {h};
      assert |w| == |v| + 1;
    }
  }

  lemma {:induction false} SubsetSize<T>(a: set<T>, b: set<T>)
    requires a <= b
    ensures |a| <= |b|
    decreases a
  {
    if a != {} {
      var x :| x in a;
      SubsetSize(a - {x}, b - {x});
    }
  }

  /** The specification picks exactly min(budget, n) of the n fresh types, and every picked one
      outranks every other. */
  lemma WinnersAreTheLowest(unseen: set<ReminderType>, budget: nat)
    ensures |Winners(unseen, budget)| == Min(budget, |unseen|)
    ensures forall t, u :: t in Winners(unseen, budget) && u in unseen - Winners(unseen, budget)
              ==> PriorityRank(t) < PriorityRank(u)
  {
    var w := WinnerCount(unseen, budget);
    forall t, u | t in Winners(unseen, budget) && u in unseen - Winners(unseen, budget)
      ensures PriorityRank(t) < PriorityRank(u)
    {
      if PriorityRank(u) <= PriorityRank(t) {
        SubsetSize(Lower(unseen, u), Lower(unseen, t));
      }
    }
  }

  // ---- counters ----

  function PendingCount(rows: seq<Row>): nat {
    if rows == [] then 0
    else PendingCount(rows[..|rows| - 1]) + (if rows[|rows| - 1].status == Pending then 1 else 0)
  }

  ghost predicate UniqueKeys(rows: seq<Row>) {
    forall i, j :: 0 <= i < j < |rows| && KeyOf(rows[i]).Some? ==> KeyOf(rows[i]) != KeyOf(rows[j])
  }

  /** How a tally moved: rows were only appended, keys stayed unique, `delivered` counts the new PENDING ones and
      `suppressed` is at least the number of new SUPPRESSED ones. */
  ghost predicate Counted(t: Tally, t': Tally) {
    && t.st.rows <= t'.st.rows
    && (UniqueKeys(t.st.rows) ==> UniqueKeys(t'.st.rows))
    && t'.delivered - t.delivered == PendingCount(t'.st.rows) - PendingCount(t.st.rows)
    && t'.suppressed - t.suppressed >=
         |t'.st.rows| - |t.st.rows| - (t'.delivered - t.delivered)
  }

  lemma {:induction false} KeyedHas(rows: seq<Row>, k: Key)
    ensures k in Keyed(rows) <==> exists i :: 0 <= i < |rows| && KeyOf(rows[i]) == Some(k)
    decreases rows
  {
    if rows != [] {
      var n := |rows| - 1;
      KeyedHas(rows[..n], k);
      if k in Keyed(rows[..n]) {
        var i :| 0 <= i < n && KeyOf(rows[..n][i]) == Some(k);
        assert KeyOf(rows[i]) == Some(k);
      }
      if i :| 0 <= i < |rows| && KeyOf(rows[i]) == Some(k) {
        if i < n { assert KeyOf(rows[..n][i]) == Some(k); }
      }
    }
  }

  lemma NewKeyStaysUnique(rows: seq<Row>, r: Row)
    requires UniqueKeys(rows) && !Collides(rows, r)
    ensures UniqueKeys(rows + [r])
  {
    if KeyOf(r).Some? { KeyedHas(rows, KeyOf(r).value); }
  }

  lemma PutCounted(t: Tally, i: Intent, capDay: Option<int>, status: Status)
    ensures var st := Put(t.st, i, capDay, status);
            var n := |st.rows| - |t.st.rows|;
            && 0 <= n
            && (status == Pending ==> Counted(t, Tally(st, t.delivered + n, t.suppressed)))
            && (status == Suppressed ==> Counted(t, Tally(st, t.delivered, t.suppressed + 1)))
  {
    var r := NewRow(i, capDay, status);
    assert (t.st.rows + [r])[..|t.st.rows|] == t.st.rows;
    if UniqueKeys(t.st.rows) && !Collides(t.st.rows, r) { NewKeyStaysUnique(t.st.rows, r); }
  }

  lemma {:induction false} UncappedCounted(t: Tally, intents: seq<Intent>)
    ensures Counted(t, PutUncapped(t, intents))
    decreases intents
  {
    if intents != [] {
      PutCounted(t, intents[0], None, Pending);
      var st := Put(t.st, intents[0], None, Pending);
      UncappedCounted(Tally(st, t.delivered + |st.rows| - |t.st.rows|, t.suppressed), intents[1..]);
    }
  }

  lemma {:induction false} GreedyCounted(t: Tally, day: int, s: seq<Intent>, budget: nat)
    ensures Counted(t, Greedy(t, day, s, budget))
    decreases s
  {
    if s != [] {
      PutCounted(t, s[0], Some(day), if budget > 0 then Pending else Suppressed);
      var t1 := HeadTally(t, day, s[0], budget);
      var n := |t1.st.rows| - |t.st.rows|;
      GreedyCounted(t1, day, s[1..], if budget > 0 then budget - n else budget);
    }
  }

  lemma {:induction false} ChildrenCounted(t: Tally, day: int, cap: nat, children: seq<string>, capped: seq<Intent>)
    ensures Counted(t, DispatchChildren(t, day, cap, children, capped))
    decreases children
  {
    if children != [] {
      var s := SortByPriority(ForChild(capped, children[0]));
      GreedyCounted(t, day, s, Budget(t.st.rows, children[0], day, cap));
      ChildrenCounted(DispatchChild(t, day, cap, children[0], capped), day, cap, children[1..], capped);
    }
  }

  /** `delivered` counts exactly the new PENDING rows, capped and uncapped. */
  lemma DispatchCountsDelivered(st: Store, intents: seq<Intent>, day: int, cap: nat)
    ensures Counted(Tally(st, 0, 0), Dispatch(st, intents, day, cap))
  {
    var capped := CappedOf(intents);
    UncappedCounted(Tally(st, 0, 0), UncappedOf(intents));
    ChildrenCounted(PutUncapped(Tally(st, 0, 0), UncappedOf(intents)), day, cap, ChildrenOf(capped), capped);
  }

  // ---- the rows a dispatch adds ----

  /** The row stands for the intent: capped ones carry the day and are PENDING or SUPPRESSED, the
      others carry none and go out. */
  ghost predicate RowFor(r: Row, i: Intent, day: int) {
    && r.familyId == i.familyId && r.childId == i.childId && r.recipient == i.recipient && r.kind == i.kind
    && r.channels == i.channels && r.sentAt == None && r.attempts == 0
    && r.priorityRank == (if i.kind == None then 0 else PriorityRank(i.kind.value))
    && if i.countsAgainstCap && i.childId != None then r.countsAgainstCap && r.capDay == Some(day) && r.status in {Pending, Suppressed}
       else !r.countsAgainstCap && r.capDay == None && r.status == Pending
  }

  ghost predicate RowForOne(r: Row, intents: seq<Intent>, day: int) {
    exists i :: i in intents && RowFor(r, i, day)
  }

  /** Old rows stay; each new row stands for one of the intents; and exactly the new PENDING rows
      have jobs, one for each of their channels but WhatsApp. */
  ghost predicate AddsRowsOf(st: Store, st': Store, intents: seq<Intent>, day: int) {
    && st.rows <= st'.rows
    && (forall n :: |st.rows| <= n < |st'.rows| ==> RowForOne(st'.rows[n], intents, day))
    && (forall n: nat, c {:trigger Job(n, c)} :: Job(n, c) in st'.jobs <==>
          || Job(n, c) in st.jobs
          || (|st.rows| <= n < |st'.rows| && st'.rows[n].status == Pending && c in st'.rows[n].channels && c != WhatsApp))
  }

  lemma PutAddsRow(st: Store, i: Intent, day: int, status: Status, intents: seq<Intent>)
    requires i in intents && (if Capped(i) then status in {Pending, Suppressed} else status == Pending)
    ensures AddsRowsOf(st, Put(st, i, if Capped(i) then Some(day) else None, status), intents, day)
  {
    var st' := Put(st, i, if Capped(i) then Some(day) else None, status);
    if st' != st { assert RowFor(st'.rows[|st.rows|], i, day); }
  }

  lemma AddsChain(a: Store, b: Store, c: Store, intents: seq<Intent>, day: int)
    requires AddsRowsOf(a, b, intents, day) && AddsRowsOf(b, c, intents, day)
    ensures AddsRowsOf(a, c, intents, day)
  {
    forall n | |a.rows| <= n < |c.rows| ensures RowForOne(c.rows[n], intents, day) {
      if n < |b.rows| { assert c.rows[n] == b.rows[n]; }
    }
  }

  lemma {:induction false} UncappedAddRows(t: Tally, todo: seq<Intent>, intents: seq<Intent>, day: int)
    requires forall i :: i in todo ==> i in intents && !Capped(i)
    ensures AddsRowsOf(t.st, PutUncapped(t, todo).st, intents, day)
    decreases todo
  {
    if todo != [] {
      var st := Put(t.st, todo[0], None, Pending);
      PutAddsRow(t.st, todo[0], day, Pending, intents);
      UncappedAddRows(Tally(st, t.delivered + |st.rows| - |t.st.rows|, t.suppressed), todo[1..], intents, day);
      AddsChain(t.st, st, PutUncapped(t, todo).st, intents, day);
    }
  }

  lemma {:induction false} GreedyAddsRows(t: Tally, day: int, todo: seq<Intent>, budget: nat, intents: seq<Intent>)
    requires forall i :: i in todo ==> i in intents && Capped(i)
    ensures AddsRowsOf(t.st, Greedy(t, day, todo, budget).st, intents, day)
    decreases todo
  {
    if todo != [] {
      var t1 := HeadTally(t, day, todo[0], budget);
      PutAddsRow(t.st, todo[0], day, if budget > 0 then Pending else Suppressed, intents);
      var budget1: nat := if budget > 0 then budget - (|t1.st.rows| - |t.st.rows|) else budget;
      GreedyAddsRows(t1, day, todo[1..], budget1, intents);
      AddsChain(t.st, t1.st, Greedy(t, day, todo, budget).st, intents, day);
    }
  }

  lemma {:induction false} ChildrenAddRows(t: Tally, day: int, cap: nat, children: seq<string>, capped: seq<Intent>, intents: seq<Intent>)
    requires forall i :: i in capped ==> i in intents && Capped(i)
    ensures AddsRowsOf(t.st, DispatchChildren(t, day, cap, children, capped).st, intents, day)
    decreases children
  {
    if children != [] {
      var ordered := SortByPriority(ForChild(capped, children[0]));
      forall i | i in ordered ensures i in intents && Capped(i) { SortKeepsElements(ForChild(capped, children[0]), i); }
      var t1 := DispatchChild(t, day, cap, children[0], capped);
      GreedyAddsRows(t, day, ordered, Budget(t.st.rows, children[0], day, cap), intents);
      ChildrenAddRows(t1, day, cap, children[1..], capped, intents);
      AddsChain(t.st, t1.st, DispatchChildren(t, day, cap, children, capped).st, intents, day);
    }
  }

  /** What a dispatch adds, row by row and job by job. */
  lemma DispatchAddsRowsOf(st: Store, intents: seq<Intent>, day: int, cap: nat)
    ensures AddsRowsOf(st, Dispatch(st, intents, day, cap).st, intents, day)
  {
    var mid := PutUncapped(Tally(st, 0, 0), UncappedOf(intents));
    UncappedAddRows(Tally(st, 0, 0), UncappedOf(intents), intents, day);
    ChildrenAddRows(mid, day, cap, ChildrenOf(CappedOf(intents)), CappedOf(intents), intents);
    AddsChain(st, mid.st, Dispatch(st, intents, day, cap).st, intents, day);
  }

  // ---- the day is the local civil day ----

  /** The instant lies between the local midnights that bound day `d`. */
  predicate OnLocalDay(t: Time, offsetMinutes: int, d: int) {
    d * DAY_MS <= t + offsetMinutes * 60 * 1000 < (d + 1) * DAY_MS
  }

  ghost predicate SameLocalDay(t: Time, u: Time, offsetMinutes: int) {
    exists d :: OnLocalDay(t, offsetMinutes, d) && OnLocalDay(u, offsetMinutes, d)
  }

  lemma CapDayIsTheLocalDay(t: Time, offsetMinutes: int, d: int)
    ensures OnLocalDay(t, offsetMinutes, d) <==> CapDay(t, offsetMinutes) == d
  {
  }

  lemma SameCapDayIff(t: Time, u: Time, offsetMinutes: int)
    ensures CapDay(t, offsetMinutes) == CapDay(u, offsetMinutes) <==> SameLocalDay(t, u, offsetMinutes)
  {
    CapDayIsTheLocalDay(t, offsetMinutes, CapDay(t, offsetMinutes));
    CapDayIsTheLocalDay(u, offsetMinutes, CapDay(t, offsetMinutes));
    if SameLocalDay(t, u, offsetMinutes) {
      var d :| OnLocalDay(t, offsetMinutes, d) && OnLocalDay(u, offsetMinutes, d);
      CapDayIsTheLocalDay(t, offsetMinutes, d);
      CapDayIsTheLocalDay(u, offsetMinutes, d);
    }
  }

  /** The rows of a list that were sent, or are about to be, against a child's cap. */
  function CountedFor(rows: seq<Row>, childId: string): nat {
    if rows == [] then 0
    else
      var r := rows[|rows| - 1];
      CountedFor(rows[..|rows| - 1], childId)
      + if r.childId == Some(childId) && r.countsAgainstCap && r.status in {Pending, Sent} then 1 else 0
  }

  lemma {:induction false} LiveCountOfMore(rows: seq<Row>, more: seq<Row>, childId: string, day: int, d: int)
    requires forall n :: 0 <= n < |more| && more[n].countsAgainstCap ==> more[n].capDay == Some(day)
    ensures LiveCount(rows + more, childId, d) == LiveCount(rows, childId, d) + if day == d then CountedFor(more, childId) else 0
    decreases |more|
  {
    if more == [] {
      assert rows + more == rows;
    } else {
      var n := |more| - 1;
      LiveCountOfMore(rows, more[..n], childId, day, d);
      assert rows + more == rows + more[..n] + [more[n]];
      LiveCountSnoc(rows + more[..n], more[n], childId, d);
    }
  }

  /** The rows a dispatch writes at `now` count against a child's budget at `later` exactly when the
      two instants lie between the same two local midnights. */
  lemma BudgetIsOfTheLocalDay(st: Store, intents: seq<Intent>, cap: nat, offsetMinutes: int, now: Time, later: Time, c: string)
    ensures var rows' := Dispatch(st, intents, CapDay(now, offsetMinutes), cap).st.rows;
            var day := CapDay(later, offsetMinutes);
            && st.rows <= rows'
            && LiveCount(rows', c, day) - LiveCount(st.rows, c, day) ==
                 if SameLocalDay(now, later, offsetMinutes) then CountedFor(rows'[|st.rows|..], c) else 0
  {
    var day := CapDay(now, offsetMinutes);
    var rows' := Dispatch(st, intents, day, cap).st.rows;
    DispatchAddsRowsOf(st, intents, day, cap);
    var more := rows'[|st.rows|..];
    forall n | 0 <= n < |more| && more[n].countsAgainstCap ensures more[n].capDay == Some(day) {
      assert RowForOne(rows'[|st.rows| + n], intents, day);
    }
    assert rows' == st.rows + more;
    LiveCountOfMore(st.rows, more, c, day, CapDay(later, offsetMinutes));
    SameCapDayIff(now, later, offsetMinutes);
  }

  // ---- runs of dispatch and delivery steps ----

  datatype Step =
    | DispatchStep(intents: seq<Intent>, day: int)
    | Attempt(job: Job, delivered: bool, now: Time)   // one run of `deliver`
    | Exhausted(job: Job)                             // the final failed attempt

  function Apply(st: Store, step: Step, cap: nat): Store {
    match step
    case DispatchStep(intents, day) => Dispatch(st, intents, day, cap).st
    case Attempt(job, delivered, now) =>
      if job !in st.jobs || job.id >= |st.rows| then st
      else
        var r := st.rows[job.id];
        if r.status == Sent then Store(st.rows, st.jobs - {job})
        else if delivered then
          Store(st.rows[job.id := r.(attempts := r.attempts + 1, status := Sent, sentAt := Some(now))],
                st.jobs - {job})
        else Store(st.rows[job.id := r.(attempts := r.attempts + 1)], st.jobs)
    case Exhausted(job) =>
      if job !in st.jobs || job.id >= |st.rows| then st
      else Store(st.rows[job.id := st.rows[job.id].(status := DeadLettered)], st.jobs - {job})
  }

  function RunSteps(st: Store, steps: seq<Step>, cap: nat): Store
    decreases steps
  {
    if steps == [] then st else RunSteps(Apply(st, steps[0], cap), steps[1..], cap)
  }

  lemma {:induction false} RunStepsSnoc(st: Store, steps: seq<Step>, step: Step, cap: nat)
    ensures RunSteps(st, steps + [step], cap) == Apply(RunSteps(st, steps, cap), step, cap)
    decreases |steps|
  {
    if steps == [] {
      assert [] + [step] == [step] && [step][1..] == [];
    } else {
      assert (steps + [step])[1..] == steps[1..] + [step];
      RunStepsSnoc(Apply(st, steps[0], cap), steps[1..], step, cap);
    }
  }

  lemma {:induction false} RunStepsSplit(st: Store, steps: seq<Step>, more: seq<Step>, cap: nat)
    ensures RunSteps(st, steps + more, cap) == RunSteps(RunSteps(st, steps, cap), more, cap)
    decreases |steps|
  {
    if steps == [] {
      assert [] + more == more;
    } else {
      assert (steps + more)[1..] == steps[1..] + more;
      RunStepsSplit(Apply(st, steps[0], cap), steps[1..], more, cap);
    }
  }

  /** No step takes a key away. */
  lemma ApplyKeepsKeys(st: Store, step: Step, cap: nat, k: Key)
    requires k in Keyed(st.rows)
    ensures k in Keyed(Apply(st, step, cap).rows)
  {
    var rows' := Apply(st, step, cap).rows;
    KeyedHas(st.rows, k);
    KeyedHas(rows', k);
    var i :| 0 <= i < |st.rows| && KeyOf(st.rows[i]) == Some(k);
    if step.DispatchStep? {
      DispatchCountsDelivered(st, step.intents, step.day, cap);
    }
    assert KeyOf(rows'[i]) == Some(k);
  }

  lemma {:induction false} RunKeepsKeys(st: Store, steps: seq<Step>, cap: nat, k: Key)
    requires k in Keyed(st.rows)
    ensures k in Keyed(RunSteps(st, steps, cap).rows)
    decreases steps
  {
    if steps != [] {
      ApplyKeepsKeys(st, steps[0], cap, k);
      RunKeepsKeys(Apply(st, steps[0], cap), steps[1..], cap, k);
    }
  }

  lemma {:induction false} GreedyAddsNothing(t: Tally, day: int, s: seq<Intent>, budget: nat, childId: string)
    requires OneChild(s, childId) && Typed(s)
    requires forall i :: i in s ==> Key(childId, day, i.kind.value) in Keyed(t.st.rows)
    ensures Greedy(t, day, s, budget).st == t.st
    ensures Greedy(t, day, s, budget).delivered == t.delivered
    decreases s
  {
    if s != [] {
      PutKeys(t.st, s[0], day, if budget > 0 then Pending else Suppressed);
      GreedyAddsNothing(HeadTally(t, day, s[0], budget), day, s[1..], budget, childId);
    }
  }

  lemma {:induction false} ChildrenAddNothing(t: Tally, day: int, cap: nat, children: seq<string>, capped: seq<Intent>)
    requires Typed(capped) && forall i :: i in capped ==> Capped(i)
    requires forall i :: i in capped ==> Key(i.childId.value, day, i.kind.value) in Keyed(t.st.rows)
    ensures DispatchChildren(t, day, cap, children, capped).st == t.st
    decreases children
  {
    if children != [] {
      var s := SortByPriority(ForChild(capped, children[0]));
      OrderedListOfChild(capped, children[0]);
      forall i | i in s ensures i in capped { SortKeepsElements(ForChild(capped, children[0]), i); }
      GreedyAddsNothing(t, day, s, Budget(t.st.rows, children[0], day, cap), children[0]);
      ChildrenAddNothing(DispatchChild(t, day, cap, children[0], capped), day, cap, children[1..], capped);
    }
  }

  /** After a dispatch, a later dispatch of the same day whose capped intents use only the same
      (child, type) pairs creates no capped row, whatever steps came between; each uncapped
      intent still adds one row. */
  lemma RepeatedSweepAddsNoCapped(st: Store, intents: seq<Intent>, steps: seq<Step>, again: seq<Intent>, day: int, cap: nat)
    requires Typed(intents) && Typed(again) && Pairs(again) <= Pairs(intents)
    ensures var mid := RunSteps(Apply(st, DispatchStep(intents, day), cap), steps, cap);
            var rows' := Dispatch(mid, again, day, cap).st.rows;
            && mid.rows <= rows'
            && |rows'| == |mid.rows| + |UncappedOf(again)|
            && rows' == PutUncapped(Tally(mid, 0, 0), UncappedOf(again)).st.rows
  {
    var first := Apply(st, DispatchStep(intents, day), cap);
    var mid := RunSteps(first, steps, cap);
    DispatchRefinesTopK(st, intents, day, cap);
    UncappedOnlyAppends(Tally(mid, 0, 0), UncappedOf(again));
    var capped := CappedOf(again);
    forall i | i in capped
      ensures Key(i.childId.value, day, i.kind.value) in Keyed(mid.rows)
    {
      var k := Key(i.childId.value, day, i.kind.value);
      assert (k.childId, k.kind) in Pairs(again);
      assert (k.childId, k.kind) in Pairs(intents);
      if k !in Keyed(st.rows) { assert k in FreshKeys(Keyed(st.rows), Pairs(intents), day); }
      assert k in Keyed(first.rows);
      RunKeepsKeys(first, steps, cap, k);
    }
    ChildrenAddNothing(PutUncapped(Tally(mid, 0, 0), UncappedOf(again)), day, cap, ChildrenOf(capped), capped);
  }

  // ---- the daily cap over runs ----

  ghost predicate WithinCap(st: Store, cap: nat) {
    forall c, d :: LiveCount(st.rows, c, d) <= cap
  }

  lemma {:induction false} ChildrenKeepCap(t: Tally, day: int, cap: nat, children: seq<string>, capped: seq<Intent>)
    requires WithinCap(t.st, cap) && forall i :: i in capped ==> Capped(i)
    ensures WithinCap(DispatchChildren(t, day, cap, children, capped).st, cap)
    decreases children
  {
    if children != [] {
      var child := children[0];
      var t1 := DispatchChild(t, day, cap, child, capped);
      OrderedListOfChild(capped, child);
      forall c, d ensures LiveCount(t1.st.rows, c, d) <= cap {
        GreedyStaysInBudget(t, day, SortByPriority(ForChild(capped, child)), Budget(t.st.rows, child, day, cap), child, c, d);
      }
      ChildrenKeepCap(t1, day, cap, children[1..], capped);
    }
  }

  /** A dispatch never takes a child past the cap, typed intents or not. */
  lemma DispatchKeepsCap(st: Store, intents: seq<Intent>, day: int, cap: nat)
    requires WithinCap(st, cap)
    ensures WithinCap(Dispatch(st, intents, day, cap).st, cap)
  {
    UncappedOnlyAppends(Tally(st, 0, 0), UncappedOf(intents));
    var capped := CappedOf(intents);
    ChildrenKeepCap(PutUncapped(Tally(st, 0, 0), UncappedOf(intents)), day, cap, ChildrenOf(capped), capped);
  }

  lemma {:induction false} LiveCountUpdate(rows: seq<Row>, i: nat, r: Row, c: string, d: int)
    requires i < |rows|
    ensures LiveCount(rows[i := r], c, d) ==
            LiveCount(rows, c, d) - (if Live(rows[i], c, d) then 1 else 0) + (if Live(r, c, d) then 1 else 0)
    decreases rows
  {
    var n := |rows| - 1;
    if i < n {
      assert rows[i := r][..n] == rows[..n][i := r];
      LiveCountUpdate(rows[..n], i, r, c, d);
    } else {
      assert rows[i := r][..n] == rows[..n];
    }
  }

  /** A successful delivery that brings a capped row back to the counted ones. */
  predicate Revives(st: Store, step: Step) {
    && step.Attempt? && step.delivered && step.job in st.jobs && step.job.id < |st.rows|
    && var r := st.rows[step.job.id];
       && r.childId.Some? && r.capDay.Some? && r.countsAgainstCap
       && r.status != Pending && r.status != Sent
  }

  /** The one way a step breaks the cap: it revives a row of a child whose day is full. */
  predicate OverRevives(st: Store, step: Step, cap: nat) {
    Revives(st, step) &&
    LiveCount(st.rows, st.rows[step.job.id].childId.value, st.rows[step.job.id].capDay.value) == cap
  }

  /** A step from within the cap stays within it iff it does not revive a row of a full day. */
  lemma StepKeepsCapIff(st: Store, step: Step, cap: nat)
    requires WithinCap(st, cap)
    ensures WithinCap(Apply(st, step, cap), cap) <==> !OverRevives(st, step, cap)
  {
    var rows' := Apply(st, step, cap).rows;
    if step.DispatchStep? {
      DispatchKeepsCap(st, step.intents, step.day, cap);
    } else if step.job.id < |st.rows| {
      var i := step.job.id;
      var r := st.rows[i];
      forall c, d
        ensures rows' != st.rows ==>
                  LiveCount(rows', c, d) == LiveCount(st.rows, c, d)
                    - (if Live(r, c, d) then 1 else 0) + (if Live(rows'[i], c, d) then 1 else 0)
      {
        if rows' != st.rows {
          assert rows' == st.rows[i := rows'[i]];
          LiveCountUpdate(st.rows, i, rows'[i], c, d);
        }
      }
    }
  }

  ghost predicate CapHoldsThroughout(st: Store, steps: seq<Step>, cap: nat)
    decreases steps
  {
    WithinCap(st, cap) && (steps == [] || CapHoldsThroughout(Apply(st, steps[0], cap), steps[1..], cap))
  }

  predicate NeverOverRevives(st: Store, steps: seq<Step>, cap: nat)
    decreases steps
  {
    steps == [] || (!OverRevives(st, steps[0], cap) && NeverOverRevives(Apply(st, steps[0], cap), steps[1..], cap))
  }

  /** The daily cap holds at every point of a run iff no step of it revives a row of a full day. */
  lemma {:induction false} RunKeepsCapIff(st: Store, steps: seq<Step>, cap: nat)
    requires WithinCap(st, cap)
    ensures CapHoldsThroughout(st, steps, cap) <==> NeverOverRevives(st, steps, cap)
    decreases steps
  {
    if steps != [] {
      StepKeepsCapIff(st, steps[0], cap);
      if !OverRevives(st, steps[0], cap) {
        RunKeepsCapIff(Apply(st, steps[0], cap), steps[1..], cap);
      }
    }
  }

  // ---- no message goes out twice on one channel ----

  /** Jobs are only ever added for new rows. */
  ghost predicate JobsGrow(st: Store, st': Store) {
    |st.rows| <= |st'.rows| && forall j :: j in st'.jobs ==> j in st.jobs || j.id >= |st.rows|
  }

  lemma PutGrowsJobs(st: Store, i: Intent, capDay: Option<int>, status: Status)
    ensures JobsGrow(st, Put(st, i, capDay, status))
  {
  }

  lemma {:induction false} UncappedGrowJobs(t: Tally, intents: seq<Intent>)
    ensures JobsGrow(t.st, PutUncapped(t, intents).st)
    decreases intents
  {
    if intents != [] {
      PutGrowsJobs(t.st, intents[0], None, Pending);
      var st := Put(t.st, intents[0], None, Pending);
      UncappedGrowJobs(Tally(st, t.delivered + |st.rows| - |t.st.rows|, t.suppressed), intents[1..]);
    }
  }

  lemma {:induction false} GreedyGrowsJobs(t: Tally, day: int, s: seq<Intent>, budget: nat)
    ensures JobsGrow(t.st, Greedy(t, day, s, budget).st)
    decreases s
  {
    if s != [] {
      PutGrowsJobs(t.st, s[0], Some(day), if budget > 0 then Pending else Suppressed);
      PutCounted(t, s[0], Some(day), if budget > 0 then Pending else Suppressed);
      var t1 := HeadTally(t, day, s[0], budget);
      var n := |t1.st.rows| - |t.st.rows|;
      GreedyGrowsJobs(t1, day, s[1..], if budget > 0 then budget - n else budget);
    }
  }

  lemma {:induction false} ChildrenGrowJobs(t: Tally, day: int, cap: nat, children: seq<string>, capped: seq<Intent>)
    ensures JobsGrow(t.st, DispatchChildren(t, day, cap, children, capped).st)
    decreases children
  {
    if children != [] {
      GreedyGrowsJobs(t, day, SortByPriority(ForChild(capped, children[0])), Budget(t.st.rows, children[0], day, cap));
      ChildrenGrowJobs(DispatchChild(t, day, cap, children[0], capped), day, cap, children[1..], capped);
    }
  }

  lemma StepGrowsJobs(st: Store, step: Step, cap: nat)
    ensures JobsGrow(st, Apply(st, step, cap))
  {
    if step.DispatchStep? {
      var capped := CappedOf(step.intents);
      UncappedGrowJobs(Tally(st, 0, 0), UncappedOf(step.intents));
      ChildrenGrowJobs(PutUncapped(Tally(st, 0, 0), UncappedOf(step.intents)), step.day, cap, ChildrenOf(capped), capped);
    }
  }

  lemma {:induction false} RunGrowsJobs(st: Store, steps: seq<Step>, cap: nat)
    ensures JobsGrow(st, RunSteps(st, steps, cap))
    decreases steps
  {
    if steps != [] {
      StepGrowsJobs(st, steps[0], cap);
      RunGrowsJobs(Apply(st, steps[0], cap), steps[1..], cap);
    }
  }

  /** The attempt hands the message to its channel. */
  predicate Delivers(st: Store, step: Step) {
    && step.Attempt? && step.delivered && step.job in st.jobs && step.job.id < |st.rows|
    && st.rows[step.job.id].status != Sent
  }

  /** Once a row went out on a channel, no continuation sends it on that channel again. */
  lemma ChannelDeliversOnce(st: Store, step: Step, steps: seq<Step>, again: Step, cap: nat)
    requires Delivers(st, step) && again.Attempt? && again.job == step.job
    ensures !Delivers(RunSteps(Apply(st, step, cap), steps, cap), again)
  {
    RunGrowsJobs(Apply(st, step, cap), steps, cap);
  }

  // ---- when intents have one deliverable channel, no row is ever revived ----

  predicate OneChannel(i: Intent) {
    forall c, d :: c in i.channels && d in i.channels && c != WhatsApp && d != WhatsApp ==> c == d
  }

  predicate OneChannelStep(step: Step) {
    step.DispatchStep? ==> forall i :: i in step.intents && Capped(i) ==> OneChannel(i)
  }

  /** An outstanding job of a capped row is its only one, and the row is still PENDING. */
  ghost predicate SoleJobs(st: Store) {
    forall j :: j in st.jobs ==>
      && j.id < |st.rows|
      && (st.rows[j.id].countsAgainstCap ==>
            st.rows[j.id].status == Pending && forall j' :: j' in st.jobs && j'.id == j.id ==> j' == j)
  }

  lemma PutKeepsSoleJobs(st: Store, i: Intent, capDay: Option<int>, status: Status)
    requires SoleJobs(st) && (Capped(i) ==> OneChannel(i))
    ensures SoleJobs(Put(st, i, capDay, status))
  {
  }

  lemma {:induction false} UncappedKeepSoleJobs(t: Tally, intents: seq<Intent>)
    requires SoleJobs(t.st) && forall i :: i in intents ==> !Capped(i)
    ensures SoleJobs(PutUncapped(t, intents).st)
    decreases intents
  {
    if intents != [] {
      PutKeepsSoleJobs(t.st, intents[0], None, Pending);
      PutCounted(t, intents[0], None, Pending);
      var st := Put(t.st, intents[0], None, Pending);
      UncappedKeepSoleJobs(Tally(st, t.delivered + |st.rows| - |t.st.rows|, t.suppressed), intents[1..]);
    }
  }

  lemma {:induction false} GreedyKeepsSoleJobs(t: Tally, day: int, s: seq<Intent>, budget: nat)
    requires SoleJobs(t.st) && forall i :: i in s ==> OneChannel(i)
    ensures SoleJobs(Greedy(t, day, s, budget).st)
    decreases s
  {
    if s != [] {
      var status := if budget > 0 then Pending else Suppressed;
      PutKeepsSoleJobs(t.st, s[0], Some(day), status);
      PutCounted(t, s[0], Some(day), status);
      var t1 := HeadTally(t, day, s[0], budget);
      var n := |t1.st.rows| - |t.st.rows|;
      GreedyKeepsSoleJobs(t1, day, s[1..], if budget > 0 then budget - n else budget);
    }
  }

  lemma {:induction false} ChildrenKeepSoleJobs(t: Tally, day: int, cap: nat, children: seq<string>, capped: seq<Intent>)
    requires SoleJobs(t.st) && forall i :: i in capped ==> OneChannel(i)
    ensures SoleJobs(DispatchChildren(t, day, cap, children, capped).st)
    decreases children
  {
    if children != [] {
      var s := SortByPriority(ForChild(capped, children[0]));
      forall i | i in s ensures i in capped { SortKeepsElements(ForChild(capped, children[0]), i); }
      GreedyKeepsSoleJobs(t, day, s, Budget(t.st.rows, children[0], day, cap));
      ChildrenKeepSoleJobs(DispatchChild(t, day, cap, children[0], capped), day, cap, children[1..], capped);
    }
  }

  lemma ApplyKeepsSoleJobs(st: Store, step: Step, cap: nat)
    requires SoleJobs(st) && OneChannelStep(step)
    ensures SoleJobs(Apply(st, step, cap))
  {
    if step.DispatchStep? {
      var capped := CappedOf(step.intents);
      UncappedKeepSoleJobs(Tally(st, 0, 0), UncappedOf(step.intents));
      ChildrenKeepSoleJobs(PutUncapped(Tally(st, 0, 0), UncappedOf(step.intents)), step.day, cap, ChildrenOf(capped), capped);
    }
  }

  /** If every capped intent has at most one deliverable channel, the cap holds at every point
      of every run: SENT is then reached only from PENDING. */
  lemma {:induction false} OneChannelKeepsCap(st: Store, steps: seq<Step>, cap: nat)
    requires SoleJobs(st) && WithinCap(st, cap)
    requires forall i :: 0 <= i < |steps| ==> OneChannelStep(steps[i])
    ensures CapHoldsThroughout(st, steps, cap)
    decreases steps
  {
    if steps != [] {
      ApplyKeepsSoleJobs(st, steps[0], cap);
      StepKeepsCapIff(st, steps[0], cap);
      OneChannelKeepsCap(Apply(st, steps[0], cap), steps[1..], cap);
    }
  }

  lemma SingletonBatch(i: Intent)
    requires Capped(i)
    ensures CappedOf([i]) == [i] && UncappedOf([i]) == [] && ChildrenOf([i]) == [i.childId.value]
    ensures SortByPriority(ForChild([i], i.childId.value)) == [i]
  {
    assert [i][1..] == [] && [i][..0] == [];
    assert ForChild([i], i.childId.value) == [i];
  }

  /** A dispatch of one capped intent into a table without its key and with budget left. */
  lemma OneCappedDispatch(st: Store, i: Intent, day: int, cap: nat)
    requires Capped(i) && i.kind.Some? && Key(i.childId.value, day, i.kind.value) !in Keyed(st.rows)
    requires LiveCount(st.rows, i.childId.value, day) < cap
    ensures Dispatch(st, [i], day, cap).st
         == Store(st.rows + [NewRow(i, Some(day), Pending)], st.jobs + JobsFor(|st.rows|, i.channels))
  {
    var c := i.childId.value;
    var t0 := Tally(st, 0, 0);
    SingletonBatch(i);
    assert PutUncapped(t0, UncappedOf([i])) == t0;
    assert [i][1..] == [];
    var t1 := Greedy(t0, day, [i], Budget(st.rows, c, day, cap));
    var h := HeadTally(t0, day, i, Budget(st.rows, c, day, cap));
    assert t1 == Greedy(h, day, [], Budget(st.rows, c, day, cap) - 1);
    assert t1.st == Put(st, i, Some(day), Pending);
    assert DispatchChildren(t0, day, cap, [c], [i]) == t1 by { assert [c][1..] == []; }
  }

  /** The second dispatch finds the place of a dead-lettered row free. */
  lemma DeadLetterFreesPlace(dead: Row, jobs: set<Job>, study: Intent, day: int)
    requires dead.status == DeadLettered && Capped(study) && study.kind.Some?
    requires KeyOf(dead) != Some(Key(study.childId.value, day, study.kind.value))
    ensures Dispatch(Store([dead], jobs), [study], day, 1).st
         == Store([dead, NewRow(study, Some(day), Pending)], jobs + JobsFor(1, study.channels))
  {
    var c := study.childId.value;
    KeyedSnoc([], dead);
    LiveCountSnoc([], dead, c, day);
    assert [] + [dead] == [dead];
    OneCappedDispatch(Store([dead], jobs), study, day, 1);
    assert [dead] + [NewRow(study, Some(day), Pending)] == [dead, NewRow(study, Some(day), Pending)];
  }

  /** A notice on two channels and another type competing for the same child's day. */
  ghost predicate Rivals(goal: Intent, study: Intent) {
    && Capped(goal) && Capped(study) && goal.childId == study.childId
    && goal.kind.Some? && study.kind.Some? && goal.kind != study.kind
    && Push in goal.channels && Email in goal.channels
  }

  lemma FirstDispatch(goal: Intent, day: int)
    requires Capped(goal) && goal.kind.Some?
    ensures Apply(Store([], {}), DispatchStep([goal], day), 1)
         == Store([NewRow(goal, Some(day), Pending)], JobsFor(0, goal.channels))
  {
    OneCappedDispatch(Store([], {}), goal, day, 1);
    assert [] + [NewRow(goal, Some(day), Pending)] == [NewRow(goal, Some(day), Pending)];
  }

  /** A failed last attempt on a job of a lone row, and what the `failed` handler makes of it. */
  lemma MailFails(g: Row, jobs: set<Job>, job: Job, at: Time)
    requires job in jobs && job.id == 0 && g.status == Pending
    ensures var tried := g.(attempts := g.attempts + 1);
            && Apply(Store([g], jobs), Attempt(job, false, at), 1) == Store([tried], jobs)
            && Apply(Store([tried], jobs), Exhausted(job), 1) == Store([tried.(status := DeadLettered)], jobs - {job})
  {
    assert [g][0 := g.(attempts := g.attempts + 1)] == [g.(attempts := g.attempts + 1)];
  }

  /** With only one of two rows counted, the table is within a cap of 1 and that day is full. */
  lemma SecondRowFillsDay(dead: Row, h: Row, jobs: set<Job>)
    requires dead.status == DeadLettered && h.childId.Some? && h.capDay.Some? && h.countsAgainstCap && h.status == Pending
    ensures WithinCap(Store([dead, h], jobs), 1) && LiveCount([dead, h], h.childId.value, h.capDay.value) == 1
  {
    forall d, e ensures LiveCount([dead, h], d, e) == if Live(h, d, e) then 1 else 0 {
      LiveCountSnoc([], dead, d, e);
      LiveCountSnoc([dead], h, d, e);
      assert [] + [dead] == [dead] && [dead] + [h] == [dead, h];
    }
  }

  /** The push left over revives the dead-lettered row: both rows now count. */
  lemma LatePush(dead: Row, h: Row, jobs: set<Job>, now: Time)
    requires dead.status == DeadLettered && h.status == Pending && Job(0, Push) in jobs
    requires dead.childId.Some? && dead.capDay.Some? && dead.countsAgainstCap && h.countsAgainstCap
    requires h.childId == dead.childId && h.capDay == dead.capDay
    ensures LiveCount(Apply(Store([dead, h], jobs), Attempt(Job(0, Push), true, now), 1).rows,
                      h.childId.value, h.capDay.value) == 2
  {
    var sent := dead.(attempts := dead.attempts + 1, status := Sent, sentAt := Some(now));
    var c, d := h.childId.value, h.capDay.value;
    assert Apply(Store([dead, h], jobs), Attempt(Job(0, Push), true, now), 1).rows == [sent, h];
    LiveCountSnoc([], sent, c, d);
    LiveCountSnoc([sent], h, c, d);
    assert [] + [sent] == [sent] && [sent] + [h] == [sent, h];
  }

  lemma RunOfTwo(st: Store, a: Step, b: Step, cap: nat)
    ensures RunSteps(st, [a, b], cap) == Apply(Apply(st, a, cap), b, cap)
  {
    RunStepsSnoc(st, [a], b, cap);
    assert [a] + [b] == [a, b] && [a][1..] == [];
  }

  lemma RunOfFour(st: Store, a: Step, b: Step, c: Step, d: Step, mid: Store, end: Store, cap: nat)
    requires Apply(Apply(st, a, cap), b, cap) == mid && Apply(Apply(mid, c, cap), d, cap) == end
    ensures RunSteps(st, [a, b, c, d], cap) == end
  {
    RunOfTwo(st, a, b, cap);
    RunOfTwo(mid, c, d, cap);
    RunStepsSplit(st, [a, b], [c, d], cap);
    assert [a, b] + [c, d] == [a, b, c, d];
  }

  /** Two channels break the cap. Under a cap of 1 a notice is dispatched to push and mail, its mail
      job fails for good, the other type takes the freed place, and the push left over still
      succeeds: the child has two counted rows on one day. */
  lemma TwoChannelsBreakCap(goal: Intent, study: Intent, day: int, failed: Time, now: Time)
    requires Rivals(goal, study)
    ensures var steps := [DispatchStep([goal], day), Attempt(Job(0, Email), false, failed), Exhausted(Job(0, Email)),
                          DispatchStep([study], day)];
            var push := Attempt(Job(0, Push), true, now);
            && WithinCap(RunSteps(Store([], {}), steps, 1), 1)
            && OverRevives(RunSteps(Store([], {}), steps, 1), push, 1)
            && LiveCount(RunSteps(Store([], {}), steps + [push], 1).rows, goal.childId.value, day) == 2
  {
    var jobs := JobsFor(0, goal.channels);
    var g, h := NewRow(goal, Some(day), Pending), NewRow(study, Some(day), Pending);
    var mail, push := Attempt(Job(0, Email), false, failed), Attempt(Job(0, Push), true, now);
    FirstDispatch(goal, day);
    assert Job(0, Email) in jobs && Job(0, Push) in jobs;
    MailFails(g, jobs, Job(0, Email), failed);
    var dead, left := g.(attempts := 1, status := DeadLettered), jobs - {Job(0, Email)};
    DeadLetterFreesPlace(dead, left, study, day);
    var end := Store([dead, h], left + JobsFor(1, study.channels));
    SecondRowFillsDay(dead, h, end.jobs);
    LatePush(dead, h, end.jobs, now);
    var start, a, c, d := Store([], {}), DispatchStep([goal], day), Exhausted(Job(0, Email)), DispatchStep([study], day);
    RunOfFour(start, a, mail, c, d, Store([g.(attempts := 1)], jobs), end, 1);
    RunStepsSnoc(start, [a, mail, c, d], push, 1);
  }

  // ---- the bound that needs no hypothesis ----

  function TypedLiveCount(rows: seq<Row>, childId: string, day: int): nat {
    if rows == [] then 0
    else
      var last := rows[|rows| - 1];
      TypedLiveCount(rows[..|rows| - 1], childId, day)
      + (if Live(last, childId, day) && last.kind.Some? then 1 else 0)
  }

  function TypesUsed(rows: seq<Row>, childId: string, day: int): set<ReminderType> {
    set t | t in ALL_TYPES && Key(childId, day, t) in Keyed(rows)
  }

  lemma EveryTypeIsListed(t: ReminderType)
    ensures t in ALL_TYPES
  {
  }

  lemma {:induction false} TypedLiveAtMostTypesUsed(rows: seq<Row>, childId: string, day: int)
    requires UniqueKeys(rows)
    ensures TypedLiveCount(rows, childId, day) <= |TypesUsed(rows, childId, day)|
    decreases rows
  {
    if rows != [] {
      var front, last := rows[..|rows| - 1], rows[|rows| - 1];
      TypedLiveAtMostTypesUsed(front, childId, day);
      if Live(last, childId, day) && last.kind.Some? {
        KeyedHas(front, Key(childId, day, last.kind.value));
        assert last.kind.value !in TypesUsed(front, childId, day);
        EveryTypeIsListed(last.kind.value);
        SubsetSize(TypesUsed(front, childId, day) + {last.kind.value}, TypesUsed(rows, childId, day));
      } else {
        SubsetSize(TypesUsed(front, childId, day), TypesUsed(rows, childId, day));
      }
    }
  }

  lemma {:induction false} RunKeepsUniqueKeys(st: Store, steps: seq<Step>, cap: nat)
    requires UniqueKeys(st.rows)
    ensures UniqueKeys(RunSteps(st, steps, cap).rows)
    decreases steps
  {
    if steps != [] {
      if steps[0].DispatchStep? {
        DispatchCountsDelivered(st, steps[0].intents, steps[0].day, cap);
      }
      RunKeepsUniqueKeys(Apply(st, steps[0], cap), steps[1..], cap);
    }
  }

  /** Whatever the cap and the channels, the unique key alone keeps a child at nine typed
      counted rows a day in every run. */
  lemma AtMostNineTypedRowsADay(st: Store, steps: seq<Step>, cap: nat, childId: string, day: int)
    requires UniqueKeys(st.rows)
    ensures TypedLiveCount(RunSteps(st, steps, cap).rows, childId, day) <= 9
  {
    var rows := RunSteps(st, steps, cap).rows;
    RunKeepsUniqueKeys(st, steps, cap);
    TypedLiveAtMostTypesUsed(rows, childId, day);
    SubsetSize(TypesUsed(rows, childId, day), ALL_TYPES);
  }

  // ---- the service in its own form ----

  lemma {:induction false} ForChildSnoc(s: seq<Intent>, i: Intent, c: string)
    ensures ForChild(s + [i], c) == ForChild(s, c) + (if i.childId == Some(c) then [i] else [])
    decreases s
  {
    if s == [] {
      assert s + [i] == [i] && [i][1..] == [];
    } else {
      assert (s + [i])[1..] == s[1..] + [i];
      ForChildSnoc(s[1..], i, c);
    }
  }

  ghost predicate GroupsOf(m: map<string, seq<Intent>>, s: seq<Intent>) {
    && (forall c :: c in m <==> c in ChildrenOf(s))
    && (forall c :: c in m ==> m[c] == ForChild(s, c))
  }

  lemma ForChildEmpty(s: seq<Intent>, c: string)
    requires c !in ChildrenOf(s)
    ensures ForChild(s, c) == []
  {
    if ForChild(s, c) != [] {
      var j := ForChild(s, c)[0];
      assert j in ForChild(s, c);
      ChildrenOfHas(s, j);
    }
  }

  lemma ChildrenOfSnoc(s: seq<Intent>, i: Intent)
    requires i.childId.Some?
    ensures var c := i.childId.value;
            ChildrenOf(s + [i]) == (if c in ChildrenOf(s) then ChildrenOf(s) else ChildrenOf(s) + [c])
  {
    assert (s + [i])[..|s|] == s;
  }

  /** One more intent in the grouping loop. */
  lemma GroupOneMore(m: map<string, seq<Intent>>, s: seq<Intent>, i: Intent)
    requires i.childId.Some? && GroupsOf(m, s)
    ensures var c := i.childId.value;
            GroupsOf(m[c := (if c in m then m[c] else []) + [i]], s + [i])
  {
    var c := i.childId.value;
    var m' := m[c := (if c in m then m[c] else []) + [i]];
    ChildrenOfSnoc(s, i);
    forall d | d in m' ensures m'[d] == ForChild(s + [i], d) {
      ForChildSnoc(s, i, d);
      if d !in m { ForChildEmpty(s, d); }
    }
  }

  // ---- what a dispatch reports as suppressed ----

  function SuppressedRows(rows: seq<Row>): nat {
    if rows == [] then 0
    else SuppressedRows(rows[..|rows| - 1]) + if rows[|rows| - 1].status == Suppressed then 1 else 0
  }

  /** The counter grows by at least the new SUPPRESSED rows and at most `most`. */
  ghost predicate SuppressesWithin(t: Tally, t': Tally, most: nat) {
    SuppressedRows(t'.st.rows) - SuppressedRows(t.st.rows) <= t'.suppressed - t.suppressed <= most && t.suppressed <= t'.suppressed
  }

  lemma PutSuppressed(st: Store, i: Intent, capDay: Option<int>, status: Status)
    ensures SuppressedRows(Put(st, i, capDay, status).rows) <= SuppressedRows(st.rows) + if status == Suppressed then 1 else 0
  {
    var r := NewRow(i, capDay, status);
    assert (st.rows + [r])[..|st.rows|] == st.rows;
  }

  lemma {:induction false} UncappedSuppressNothing(t: Tally, todo: seq<Intent>)
    ensures SuppressesWithin(t, PutUncapped(t, todo), 0)
    decreases todo
  {
    if todo != [] {
      var st := Put(t.st, todo[0], None, Pending);
      PutSuppressed(t.st, todo[0], None, Pending);
      UncappedSuppressNothing(Tally(st, t.delivered + |st.rows| - |t.st.rows|, t.suppressed), todo[1..]);
    }
  }

  lemma {:induction false} GreedySuppresses(t: Tally, day: int, todo: seq<Intent>, budget: nat)
    ensures SuppressesWithin(t, Greedy(t, day, todo, budget), |todo|)
    decreases todo
  {
    if todo != [] {
      var t1 := HeadTally(t, day, todo[0], budget);
      PutSuppressed(t.st, todo[0], Some(day), if budget > 0 then Pending else Suppressed);
      var budget1: nat := if budget > 0 then budget - (|t1.st.rows| - |t.st.rows|) else budget;
      GreedySuppresses(t1, day, todo[1..], budget1);
    }
  }

  function CountOf(children: seq<string>, capped: seq<Intent>): nat {
    if children == [] then 0 else |ForChild(capped, children[0])| + CountOf(children[1..], capped)
  }

  lemma SortKeepsLength(s: seq<Intent>)
    ensures |SortByPriority(s)| == |s|
  {
    assert |multiset(SortByPriority(s))| == |multiset(s)|;
  }

  lemma {:induction false} ChildrenSuppress(t: Tally, day: int, cap: nat, children: seq<string>, capped: seq<Intent>)
    ensures SuppressesWithin(t, DispatchChildren(t, day, cap, children, capped), CountOf(children, capped))
    decreases children
  {
    if children != [] {
      var mine := ForChild(capped, children[0]);
      SortKeepsLength(mine);
      GreedySuppresses(t, day, SortByPriority(mine), Budget(t.st.rows, children[0], day, cap));
      ChildrenSuppress(DispatchChild(t, day, cap, children[0], capped), day, cap, children[1..], capped);
    }
  }

  lemma {:induction false} CountOneMore(children: seq<string>, capped: seq<Intent>, i: Intent)
    requires i.childId.Some? && forall a, b :: 0 <= a < b < |children| ==> children[a] != children[b]
    ensures CountOf(children, capped + [i]) == CountOf(children, capped) + if i.childId.value in children then 1 else 0
    decreases children
  {
    if children != [] {
      ForChildSnoc(capped, i, children[0]);
      CountOneMore(children[1..], capped, i);
      assert i.childId.value in children <==> i.childId.value == children[0] || i.childId.value in children[1..];
    }
  }

  lemma {:induction false} CountSnoc(children: seq<string>, c: string, capped: seq<Intent>)
    ensures CountOf(children + [c], capped) == CountOf(children, capped) + |ForChild(capped, c)|
    decreases children
  {
    if children == [] {
      assert children + [c] == [c] && [c][1..] == [];
    } else {
      assert (children + [c])[1..] == children[1..] + [c];
      CountSnoc(children[1..], c, capped);
    }
  }

  /** The children's lists together are the whole batch. */
  lemma {:induction false} ChildrenCountAll(capped: seq<Intent>)
    requires forall i :: i in capped ==> i.childId.Some?
    ensures CountOf(ChildrenOf(capped), capped) == |capped|
    decreases |capped|
  {
    if capped != [] {
      var n := |capped| - 1;
      var front, i := capped[..n], capped[n];
      var c, children := i.childId.value, ChildrenOf(front);
      ChildrenCountAll(front);
      assert capped == front + [i];
      ChildrenOfSnoc(front, i);
      CountOneMore(children, front, i);
      if c !in children {
        ForChildEmpty(front, c);
        ForChildSnoc(front, i, c);
        CountSnoc(children, c, capped);
      }
    }
  }

  /** A dispatch reports at least the SUPPRESSED rows it writes and at most its capped intents. */
  lemma DispatchSuppressesWithin(st: Store, intents: seq<Intent>, day: int, cap: nat)
    ensures SuppressesWithin(Tally(st, 0, 0), Dispatch(st, intents, day, cap), |CappedOf(intents)|)
  {
    var capped := CappedOf(intents);
    UncappedSuppressNothing(Tally(st, 0, 0), UncappedOf(intents));
    ChildrenSuppress(PutUncapped(Tally(st, 0, 0), UncappedOf(intents)), day, cap, ChildrenOf(capped), capped);
    ChildrenCountAll(capped);
  }

  lemma {:induction false} JobsForSnoc(id: nat, s: seq<Channel>, c: Channel)
    ensures JobsFor(id, s + [c]) == JobsFor(id, s) + (if c == WhatsApp then {} else {Job(id, c)})
  {
    assert forall d :: d in s + [c] <==> d in s || d == c;
  }

  class Dispatcher {
    var rows: seq<Row>
    var jobs: set<Job>
    const cap: nat
    const offsetMinutes: int

    constructor (cap: nat, offsetMinutes: int)
      ensures View() == Store([], {}) && this.cap == cap && this.offsetMinutes == offsetMinutes
    {
      rows, jobs := [], {};
      this.cap, this.offsetMinutes := cap, offsetMinutes;
    }

    ghost function View(): Store reads this { Store(rows, jobs) }

    /** Returns None when the unique key already exists. */
    method PersistNotification(i: Intent, capDay: Option<int>, status: Status) returns (id: Option<nat>)
      modifies this`rows
      ensures id == if Collides(old(rows), NewRow(i, capDay, status)) then None else Some(|old(rows)|)
      ensures rows == if id.None? then old(rows) else old(rows) + [NewRow(i, capDay, status)]
    {
      var r := NewRow(i, capDay, status);
      if Collides(rows, r) { return None; }
      id := Some(|rows|);
      rows := rows + [r];
    }

    /** One idempotent job per deliverable channel; WhatsApp is skipped. */
    method EnqueueChannels(id: nat)
      requires id < |rows|
      modifies this`jobs
      ensures jobs == old(jobs) + JobsFor(id, rows[id].channels)
    {
      var channels := rows[id].channels;
      for n := 0 to |channels|
        invariant jobs == old(jobs) + JobsFor(id, channels[..n])
      {
        assert channels[..n + 1] == channels[..n] + [channels[n]];
        JobsForSnoc(id, channels[..n], channels[n]);
        if channels[n] != WhatsApp {
          jobs := jobs + {Job(id, channels[n])};
        }
      }
      assert channels[..|channels|] == channels;
    }

    /** Persists a row PENDING and enqueues its channels unless the key exists. */
    method Send(i: Intent, capDay: Option<int>) returns (sent: bool)
      modifies this
      ensures View() == Put(old(View()), i, capDay, Pending)
      ensures |rows| == |old(rows)| + if sent then 1 else 0
    {
      var id := PersistNotification(i, capDay, Pending);
      if id.Some? { EnqueueChannels(id.value); }
      return id.Some?;
    }

    method DispatchAlways(uncapped: seq<Intent>) returns (delivered: nat)
      modifies this
      ensures Tally(View(), delivered, 0) == PutUncapped(Tally(old(View()), 0, 0), uncapped)
    {
      delivered := 0;
      for n := 0 to |uncapped|
        invariant PutUncapped(Tally(View(), delivered, 0), uncapped[n..])
               == PutUncapped(Tally(old(View()), 0, 0), uncapped)
      {
        assert uncapped[n..][0] == uncapped[n] && uncapped[n..][1..] == uncapped[n + 1..];
        var sent := Send(uncapped[n], None);
        if sent { delivered := delivered + 1; }
      }
    }

    /** The budget loop over one child's ordered intents. */
    method DispatchOrdered(ordered: seq<Intent>, day: int, allowance: nat, delivered0: nat, suppressed0: nat)
      returns (delivered: nat, suppressed: nat)
      modifies this
      ensures Tally(View(), delivered, suppressed)
           == Greedy(Tally(old(View()), delivered0, suppressed0), day, ordered, allowance)
    {
      delivered, suppressed := delivered0, suppressed0;
      var budget := allowance;
      for n := 0 to |ordered|
        invariant Greedy(Tally(View(), delivered, suppressed), day, ordered[n..], budget)
               == Greedy(Tally(old(View()), delivered0, suppressed0), day, ordered, allowance)
      {
        assert ordered[n..][0] == ordered[n] && ordered[n..][1..] == ordered[n + 1..];
        if budget > 0 {
          var sent := Send(ordered[n], Some(day));
          if sent {
            budget := budget - 1;
            delivered := delivered + 1;
          }
        } else {
          var _ := PersistNotification(ordered[n], Some(day), Suppressed);
          suppressed := suppressed + 1;
        }
      }
    }

    /** Groups by child, keeping the order in which children are first met. */
    method GroupByChild(capped: seq<Intent>) returns (order: seq<string>, byChild: map<string, seq<Intent>>)
      requires forall i :: i in capped ==> Capped(i)
      ensures order == ChildrenOf(capped) && GroupsOf(byChild, capped)
    {
      order, byChild := [], map[];
      for n := 0 to |capped|
        invariant order == ChildrenOf(capped[..n]) && GroupsOf(byChild, capped[..n])
      {
        assert capped[n] in capped && capped[..n + 1] == capped[..n] + [capped[n]];
        order, byChild := AddToGroup(order, byChild, capped[n], capped[..n]);
      }
      assert capped[..|capped|] == capped;
    }

    method AddToGroup(order0: seq<string>, groups: map<string, seq<Intent>>, i: Intent, ghost seen: seq<Intent>)
      returns (order: seq<string>, byChild: map<string, seq<Intent>>)
      requires Capped(i) && order0 == ChildrenOf(seen) && GroupsOf(groups, seen)
      ensures order == ChildrenOf(seen + [i]) && GroupsOf(byChild, seen + [i])
    {
      GroupOneMore(groups, seen, i);
      ChildrenOfSnoc(seen, i);
      if i.childId.value in groups {
        return order0, groups[i.childId.value := groups[i.childId.value] + [i]];
      } else {
        return order0 + [i.childId.value], groups[i.childId.value := [i]];
      }
    }

    /** Each child's capped intents compete for what is left of its daily budget. */
    method DispatchCapped(capped: seq<Intent>, day: int, delivered0: nat) returns (delivered: nat, suppressed: nat)
      requires forall i :: i in capped ==> Capped(i)
      modifies this
      ensures Tally(View(), delivered, suppressed)
           == DispatchChildren(Tally(old(View()), delivered0, 0), day, cap, ChildrenOf(capped), capped)
    {
      delivered, suppressed := delivered0, 0;
      var order, byChild := GroupByChild(capped);
      for n := 0 to |order|
        invariant DispatchChildren(Tally(View(), delivered, suppressed), day, cap, order[n..], capped)
               == DispatchChildren(Tally(old(View()), delivered0, 0), day, cap, order, capped)
      {
        assert order[n..][0] == order[n] && order[n..][1..] == order[n + 1..];
        delivered, suppressed := DispatchToChild(order[n], byChild[order[n]], day, capped, delivered, suppressed);
      }
    }

    method DispatchToChild(childId: string, intents: seq<Intent>, day: int, ghost capped: seq<Intent>,
                           delivered0: nat, suppressed0: nat) returns (delivered: nat, suppressed: nat)
      requires intents == ForChild(capped, childId)
      modifies this
      ensures Tally(View(), delivered, suppressed)
           == DispatchChild(Tally(old(View()), delivered0, suppressed0), day, cap, childId, capped)
    {
      var alreadyCounted := LiveCount(rows, childId, day);
      var budget: nat := Max(0, cap - alreadyCounted);
      delivered, suppressed := DispatchOrdered(SortByPriority(intents), day, budget, delivered0, suppressed0);
    }

    method BuildAndDispatch(intents: seq<Intent>, now: Time) returns (delivered: nat, suppressed: nat)
      modifies this
      ensures Tally(View(), delivered, suppressed)
           == Dispatch(old(View()), intents, CapDay(now, offsetMinutes), cap)
    {
      delivered := DispatchAlways(UncappedOf(intents));
      delivered, suppressed := DispatchCapped(CappedOf(intents), CapDay(now, offsetMinutes), delivered);
    }

    /** One run of the delivery job: `accepted` is whether the channel took the message. */
    method Deliver(job: Job, accepted: bool, now: Time) returns (done: bool)
      modifies this
      ensures View() == Apply(old(View()), Attempt(job, accepted, now), cap)
      ensures done ==> job !in jobs || job.id >= |rows|
    {
      if job !in jobs || job.id >= |rows| { return true; }
      if rows[job.id].status == Sent {
        jobs := jobs - {job};
        return true;
      }
      rows := rows[job.id := rows[job.id].(attempts := rows[job.id].attempts + 1)];
      if !accepted { return false; }
      rows := rows[job.id := rows[job.id].(status := Sent, sentAt := Some(now))];
      jobs := jobs - {job};
      return true;
    }

    /** The worker's `failed` handler. */
    method OnFailed(job: Job, attemptsMade: nat, maxAttempts: nat)
      modifies this
      ensures View() == if attemptsMade >= maxAttempts then Apply(old(View()), Exhausted(job), cap) else old(View())
    {
      if attemptsMade >= maxAttempts && job in jobs && job.id < |rows| {
        rows := rows[job.id := rows[job.id].(status := DeadLettered)];
        jobs := jobs - {job};
      }
    }
  }
}
