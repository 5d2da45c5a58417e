/** Marking, unmarking and purging children, subscriptions and families in any order
    (src/modules/children/children.service.ts, src/modules/billing/billing.service.ts,
    src/modules/settings/settings.service.ts, src/modules/onboarding/onboarding.service.ts). Each call
    and each candidate's transaction is one step; a sweep is any sequence of candidate transactions,
    interleaved with other steps. Rows that other services insert or update, a family's first
    subscription included, are written by steps of their own. */
module PurgeSweeps {
  import opened Common
  import opened RetentionPurge
  import opened FamilyIsolation

  /** RESTORE_WINDOW_MS. */
  const RESTORE_WINDOW: Time := 7 * DAY_MS

  const ROOTS: set<Table> := {CHILDREN, SUBSCRIPTIONS, FAMILIES}

  /** The configuration the steps read. */
  datatype Config = Config(policy: Policy, accountRetainDays: nat)

  datatype Op =
    | SoftDeleteChild(family: Id, child: Id, at: Time)
    | RestoreChild(family: Id, child: Id, at: Time, slotFree: bool)
    | RequestDeletion(family: Id, at: Time)
    | CancelDeletion(family: Id, at: Time)
    | CancelSubscription(family: Id)
    | Reactivate(family: Id, at: Time)
    | PaymentActivates(sub: Id, periodEnd: Time)
    | SelectPlan(family: Id, plan: Id)
    | Write(owner: Option<Id>, key: Key, row: Row)
    | DeregisterToken(family: Id, token: Id)
    | PurgeChild(child: Id, now: Time)
    | PurgeSubscription(sub: Id, now: Time)
    | PurgeFamily(family: Id, now: Time, choice: Choice)

  // ---- the windows ----

  predicate IsDue(mark: Option<Time>, now: Time) {
    mark.Some? && mark.value <= now
  }

  predicate Due(m: Db, k: Key, now: Time) {
    k in m && IsDue(m[k].mark, now)
  }

  predicate Unmarked(m: Db, k: Key) {
    k in m && m[k].mark == None
  }

  /** Deletion and cancellation can be taken back while the deadline is ahead. */
  predicate CanTakeBack(mark: Option<Time>, now: Time) {
    mark.Some? && mark.value > now
  }

  /** A child can be restored while no more than the window has passed since its deletion. */
  predicate CanRestore(mark: Option<Time>, now: Time) {
    mark.Some? && now - (mark.value - RESTORE_WINDOW) <= RESTORE_WINDOW
  }

  /** The windows fit the purge conditions: without gap or overlap for accounts and
      subscriptions, with the one instant of overlap for children. */
  lemma WindowsFit(mark: Option<Time>, now: Time)
    requires mark.Some?
    ensures CanTakeBack(mark, now) <==> !IsDue(mark, now)
    ensures CanRestore(mark, now) <==> !IsDue(mark, now) || now == mark.value
  {
  }

  // ---- the steps ----

  function Remark(m: Db, k: Key, mark: Option<Time>): Db
    requires k in m
  {
    m[k := m[k].(mark := mark)]
  }

  /** Revokes the live sessions a column picks. */
  function SessionsRevoked(m: Db, f: Field, id: Id, at: Time): Db {
    map k | k in m ::
      if k.table == AUTH_SESSIONS && Points(m[k], f, id) && m[k].mark == None then m[k].(mark := Some(at)) else m[k]
  }

  predicate NoLiveSession(m: Db, f: Field, id: Id) {
    forall k :: k in m && k.table == AUTH_SESSIONS && Points(m[k], f, id) ==> m[k].mark.Some?
  }

  /** `cancel` makes the paid period's end the deadline, whatever the status was. */
  function SubscriptionCanceled(m: Db, f: Id): Db {
    map k | k in m ::
      if k.table == SUBSCRIPTIONS && Points(m[k], FamilyRef, f) then m[k].(mark := Some(m[k].stamp)) else m[k]
  }

  function SubscriptionReactivated(m: Db, f: Id, at: Time): Db {
    map k | k in m ::
      if k.table == SUBSCRIPTIONS && Points(m[k], FamilyRef, f) && CanTakeBack(m[k].mark, at)
      then m[k].(mark := None) else m[k]
  }

  /** Selecting a plan puts the family's subscription on it and back to PENDING, which ends its mark. */
  function PlanSelected(m: Db, f: Id, plan: Id): Db {
    map k | k in m ::
      if k.table == SUBSCRIPTIONS && Points(m[k], FamilyRef, f)
      then m[k].(refs := m[k].refs[PlanRef := plan], mark := None) else m[k]
  }

  function ChildRows(m: Db, c: Id): set<Key> {
    ChildDependents(m, {c}) + {Key(CHILDREN, c)}
  }

  function SubscriptionRows(m: Db, s: Id): set<Key> {
    Sel(m, {INVOICES, PAYMENT_INTENTS}, SubscriptionRef, {s}) + {Key(SUBSCRIPTIONS, s)}
  }

  ghost predicate Sound(m: Db) {
    Schema(m) && Coherent(m)
  }

  /** What another service may write: a row of one family (a plan's is none) that fits the schema
      and its family, a new root unmarked, and no mark and no owner changed. Only a device token may
      change its owner: it goes to the family that registers it. */
  ghost predicate Writable(m: Db, f: Option<Id>, k: Key, row: Row) {
    && Sound(m[k := row]) && FamilyOf(m[k := row], k) == f
    && (k in m && k.table != PUSH_TOKENS ==> FamilyOf(m, k) == f)
    && (k.table in ROOTS ==> row.mark == if k in m then m[k].mark else None)
  }

  /** The family takes back its own device token. */
  predicate Deregisters(op: Op, m: Db, k: Key) {
    op.DeregisterToken? && k == Key(PUSH_TOKENS, op.token) && k in m && Points(m[k], FamilyRef, op.family)
  }

  ghost predicate Step(m: Db, config: Config, op: Op, m': Db) {
    match op
    case SoftDeleteChild(f, c, at) =>
      var k := Key(CHILDREN, c);
      m' == if k in m && Points(m[k], FamilyRef, f) && m[k].mark == None
            then SessionsRevoked(Remark(m, k, Some(at + RESTORE_WINDOW)), ChildRef, c, at) else m
    case RestoreChild(f, c, at, slotFree) =>
      var k := Key(CHILDREN, c);
      m' == if k in m && Points(m[k], FamilyRef, f) && CanRestore(m[k].mark, at) && slotFree
            then Remark(m, k, None) else m
    case RequestDeletion(f, at) =>
      var k := Key(FAMILIES, f);
      m' == if k in m && m[k].mark == None
            then SessionsRevoked(Remark(m, k, Some(at + config.accountRetainDays * DAY_MS)), FamilyRef, f, at) else m
    case CancelDeletion(f, at) =>
      var k := Key(FAMILIES, f);
      m' == if k in m && CanTakeBack(m[k].mark, at) then Remark(m, k, None) else m
    case CancelSubscription(f) => m' == SubscriptionCanceled(m, f)
    case Reactivate(f, at) => m' == SubscriptionReactivated(m, f, at)
    case PaymentActivates(s, end) =>
      var k := Key(SUBSCRIPTIONS, s);
      m' == if k in m then m[k := m[k].(stamp := end, mark := None)] else m
    case SelectPlan(f, plan) => m' == if Key(PLANS, plan) in m then PlanSelected(m, f, plan) else m
    case Write(f, k, row) => m' == if Writable(m, f, k, row) then m[k := row] else m
    case DeregisterToken(f, t) =>
      var k := Key(PUSH_TOKENS, t);
      m' == if Deregisters(op, m, k) then m - {k} else m
    case PurgeChild(c, now) => m' == if Due(m, Key(CHILDREN, c), now) then m - ChildRows(m, c) else m
    case PurgeSubscription(s, now) => m' == if Due(m, Key(SUBSCRIPTIONS, s), now) then m - SubscriptionRows(m, s) else m
    case PurgeFamily(f, now, choice) =>
      && Allowed(m, choice)
      && if Due(m, Key(FAMILIES, f), now) && !PinnedBySub(m, f) && !PinnedByParent(m, f)
         then f != TOMBSTONE_FAMILY && IsPurged(m, f, config.policy, now, choice, m') else m' == m
  }

  /** A run: each state comes from the one before by its operation. */
  ghost predicate Trace(config: Config, states: seq<Db>, ops: seq<Op>) {
    && |states| == |ops| + 1
    && forall i :: 0 <= i < |ops| ==> Step(states[i], config, ops[i], states[i + 1])
  }

  // ---- every step keeps the database sound ----

  /** The references are the same, up to the plan of a subscription. */
  ghost predicate SameButPlan(m: Db, k: Key, r: Row, r': Row) {
    || r'.refs == r.refs
    || (k.table == SUBSCRIPTIONS && exists p :: Key(PLANS, p) in m && r'.refs == r.refs[PlanRef := p])
  }

  /** Only marks, dates and plans differ. */
  ghost predicate SameRefs(m: Db, m': Db) {
    && (forall k :: k in m' <==> k in m)
    && (forall k :: k in m ==> SameButPlan(m, k, m[k], m'[k]))
  }

  predicate IsPurge(op: Op) {
    op.PurgeChild? || op.PurgeSubscription? || op.PurgeFamily?
  }

  predicate IsMark(op: Op) {
    !IsPurge(op) && !op.Write? && !op.DeregisterToken?
  }

  lemma MarkingKeepsRefs(m: Db, config: Config, op: Op, m': Db)
    requires Step(m, config, op, m') && IsMark(op)
    ensures SameRefs(m, m')
  {
  }

  /** A marking operation and the rows of the family it names: nothing else changes. */
  lemma SubscriptionMarks(m: Db, config: Config, op: Op, m': Db, k: Key)
    requires Step(m, config, op, m') && IsMark(op) && k in m && k.table == SUBSCRIPTIONS
    ensures k in m'
    ensures var was, own := m[k], FamilyRef in m[k].refs && (op.CancelSubscription? || op.Reactivate? || op.SelectPlan?)
                                    && m[k].refs[FamilyRef] == op.family;
            m'[k] ==
              match op
              case CancelSubscription(_) => if own then was.(mark := Some(was.stamp)) else was
              case Reactivate(_, at) => if own && was.mark.Some? && was.mark.value > at then was.(mark := None) else was
              case SelectPlan(_, plan) =>
                if own && Key(PLANS, plan) in m then was.(mark := None, refs := was.refs[PlanRef := plan]) else was
              case PaymentActivates(s, end) => if k.id == s then was.(mark := None, stamp := end) else was
              case _ => was
  {
  }

  /** Deleting a child or an account revokes exactly its live sessions, at that moment; an earlier
      revocation keeps its time. */
  lemma SessionMarks(m: Db, config: Config, op: Op, m': Db, k: Key)
    requires Step(m, config, op, m') && IsMark(op) && k in m && k.table == AUTH_SESSIONS
    ensures k in m'
    ensures m'[k] ==
              match op
              case SoftDeleteChild(f, c, at) =>
                var root := Key(CHILDREN, c);
                if root in m && m[root].mark == None && Points(m[root], FamilyRef, f) && m[k].mark == None && Points(m[k], ChildRef, c)
                then m[k].(mark := Some(at)) else m[k]
              case RequestDeletion(f, at) =>
                var root := Key(FAMILIES, f);
                if root in m && m[root].mark == None && m[k].mark == None && Points(m[k], FamilyRef, f)
                then m[k].(mark := Some(at)) else m[k]
              case _ => m[k]
  {
  }

  /** A child is marked seven days ahead and a family by the retention setting, each only while
      unmarked; restoring takes the child's mark back up to its end with a free slot, canceling the
      family's before its end. */
  lemma ChildAndFamilyMarks(m: Db, config: Config, op: Op, m': Db, k: Key)
    requires Step(m, config, op, m') && IsMark(op) && k in m && k.table in {CHILDREN, FAMILIES}
    ensures k in m'
    ensures m'[k] ==
              match op
              case SoftDeleteChild(f, c, at) =>
                if k == Key(CHILDREN, c) && m[k].mark == None && Points(m[k], FamilyRef, f)
                then m[k].(mark := Some(at + 7 * DAY_MS)) else m[k]
              case RestoreChild(f, c, at, slotFree) =>
                if k == Key(CHILDREN, c) && m[k].mark.Some? && m[k].mark.value >= at && Points(m[k], FamilyRef, f) && slotFree
                then m[k].(mark := None) else m[k]
              case RequestDeletion(f, at) =>
                if k == Key(FAMILIES, f) && m[k].mark == None
                then m[k].(mark := Some(at + config.accountRetainDays * DAY_MS)) else m[k]
              case CancelDeletion(f, at) =>
                if k == Key(FAMILIES, f) && m[k].mark.Some? && m[k].mark.value > at then m[k].(mark := None) else m[k]
              case _ => m[k]
  {
  }

  lemma MarkingSparesOtherTables(m: Db, config: Config, op: Op, m': Db, k: Key)
    requires Step(m, config, op, m') && IsMark(op) && k in m && k.table !in ROOTS + {AUTH_SESSIONS}
    ensures k in m' && m'[k] == m[k]
  {
  }

  lemma SameRefsKeepSound(m: Db, m': Db)
    requires Sound(m) && SameRefs(m, m')
    ensures Sound(m')
  {
    forall k, f {:trigger f in m'[k].refs} | k in m' && f in m'[k].refs && f in {ChildRef, ParentRef, SubscriptionRef}
      ensures KeepsToFamily(m', k, f)
    {
      assert f in m[k].refs && KeepsToFamily(m, k, f);
    }
    assert Filled(m');
  }

  lemma SameRefsSameFamily(m: Db, m': Db, k: Key)
    requires SameRefs(m, m') && k in m
    ensures FamilyOf(m', k) == FamilyOf(m, k)
  {
  }

  lemma OwnerHasItsFamily(m: Db, o: Key)
    requires o in m && o.table != FAMILIES && FamilyRef in m[o].refs
    ensures FamilyOf(m, o) == Some(m[o].refs[FamilyRef])
  {
  }

  /** A write leaves every row with its family, except a device token that is registered anew. */
  lemma WriteKeepsFamily(m: Db, f: Option<Id>, k: Key, row: Row, j: Key)
    requires Sound(m) && Writable(m, f, k, row) && j in m && (j == k ==> k.table != PUSH_TOKENS)
    ensures FamilyOf(m[k := row], j) == FamilyOf(m, j)
  {
    if j != k && OwnerColumn(j.table).Some? {
      var h := OwnerColumn(j.table).value;
      assert NotNull(j.table, h) && h in m[j].refs && ActionOf(j.table, h) != NoForeignKey;
      var o := Key(Target(h), m[j].refs[h]);
      assert o in m && NotNull(o.table, FamilyRef) && FamilyRef in m[o].refs && FamilyRef in m[k := row][o].refs;
      OwnerHasItsFamily(m, o);
      OwnerHasItsFamily(m[k := row], o);
    }
  }

  /** No column names the row. */
  ghost predicate Unreferred(m: Db, k: Key) {
    forall j, h {:trigger h in m[j].refs} :: j in m && h in m[j].refs ==> Key(Target(h), m[j].refs[h]) != k
  }

  /** The row has its table's columns, all that must not be null, and refers to rows of the family. */
  ghost predicate RefersWithin(m: Db, f: Id, k: Key, row: Row) {
    forall h: Field ::
      && (h in row.refs ==> HasColumn(k.table, h))
      && (NotNull(k.table, h) ==> h in row.refs)
      && (h in row.refs && ActionOf(k.table, h) != NoForeignKey ==> Key(Target(h), row.refs[h]) in m)
      && (h in {ChildRef, ParentRef, SubscriptionRef} && h in row.refs && Key(Target(h), row.refs[h]) in m ==>
            FamilyBehind(m, row, h) == Some(f))
  }

  /** A row of the family in any table: new, or a device token again. A family has one subscription,
      and it has a plan. */
  ghost predicate FitsIn(m: Db, f: Id, k: Key, row: Row) {
    && (k in m ==> k.table == PUSH_TOKENS) && Unreferred(m, k) && row.mark == None && RefersWithin(m, f, k, row)
    && (k.table == SUBSCRIPTIONS ==> PlanRef in row.refs && Sel(m, {SUBSCRIPTIONS}, FamilyRef, {f}) == {})
    && (if k.table == FAMILIES then k.id == f
        else if OwnerColumn(k.table).Some? then FamilyBehind(m, row, OwnerColumn(k.table).value) == Some(f)
        else Points(row, FamilyRef, f))
  }

  /** A table that belongs to a family through an owner has no family column. */
  lemma OwnedRowsColumns(m: Db, f: Id, k: Key, row: Row)
    requires RefersWithin(m, f, k, row)
    ensures OwnerColumn(k.table).Some? || k.table == FAMILIES ==> FamilyRef !in row.refs
  {
    if OwnerColumn(k.table).Some? { OwnedTables(k.table); }
    assert FamilyRef in row.refs ==> HasColumn(k.table, FamilyRef);
  }

  /** The columns of the other rows are as sound as before. */
  lemma OtherRowAt(m: Db, k: Key, row: Row, j: Key, h: Field)
    requires Sound(m) && Unreferred(m, k) && j in m && j != k
    ensures var d := m[k := row];
            && (h in d[j].refs ==> HasColumn(j.table, h))
            && (NotNull(j.table, h) ==> h in d[j].refs)
            && (h in d[j].refs && ActionOf(j.table, h) != NoForeignKey ==> Key(Target(h), d[j].refs[h]) in d)
            && (h in {ChildRef, ParentRef, SubscriptionRef} && h in d[j].refs ==> KeepsToFamily(d, j, h))
  {
    assert h in m[j].refs ==> HasColumn(j.table, h);
    assert NotNull(j.table, h) ==> h in m[j].refs;
    assert h in m[j].refs && h in {ChildRef, ParentRef, SubscriptionRef} ==> KeepsToFamily(m, j, h);
    assert h in m[j].refs && ActionOf(j.table, h) != NoForeignKey ==> Key(Target(h), m[j].refs[h]) in m;
  }

  lemma FittingRowAt(m: Db, f: Id, k: Key, row: Row, h: Field)
    requires Sound(m) && FitsIn(m, f, k, row)
    ensures var d := m[k := row];
            && (h in row.refs ==> HasColumn(k.table, h))
            && (NotNull(k.table, h) ==> h in row.refs)
            && (h in row.refs && ActionOf(k.table, h) != NoForeignKey ==> Key(Target(h), row.refs[h]) in d)
            && (h in {ChildRef, ParentRef, SubscriptionRef} && h in row.refs ==> KeepsToFamily(d, k, h))
  {
    OwnedRowsColumns(m, f, k, row);
    assert h in row.refs ==> HasColumn(k.table, h);
    assert HasColumn(k.table, h) ==> Target(h) != k.table;
  }

  lemma FittingRowKeepsSound(m: Db, f: Id, k: Key, row: Row)
    requires Sound(m) && FitsIn(m, f, k, row)
    ensures Sound(m[k := row])
  {
    var d := m[k := row];
    forall j, h {:trigger h in d[j].refs} | j in d
      ensures h in d[j].refs ==> HasColumn(j.table, h)
      ensures NotNull(j.table, h) ==> h in d[j].refs
      ensures h in d[j].refs && ActionOf(j.table, h) != NoForeignKey ==> Key(Target(h), d[j].refs[h]) in d
      ensures h in {ChildRef, ParentRef, SubscriptionRef} && h in d[j].refs ==> KeepsToFamily(d, j, h)
    {
      if j == k { FittingRowAt(m, f, k, row, h); } else { OtherRowAt(m, k, row, j, h); }
    }
    assert OneSubscription(d) by {
      forall j | j in m && j.table == SUBSCRIPTIONS && k.table == SUBSCRIPTIONS
        ensures !Points(m[j], FamilyRef, f)
      {
        assert j !in Sel(m, {SUBSCRIPTIONS}, FamilyRef, {f});
      }
    }
  }

  /** Every such row can be written. */
  lemma FittingRowsAreWritable(m: Db, f: Id, k: Key, row: Row)
    requires Sound(m) && FitsIn(m, f, k, row)
    ensures Writable(m, Some(f), k, row)
  {
    FittingRowKeepsSound(m, f, k, row);
    OwnedRowsColumns(m, f, k, row);
    if OwnerColumn(k.table).Some? {
      assert HasColumn(k.table, OwnerColumn(k.table).value);
    }
  }

  /** Removing rows nothing left refers to. */
  ghost predicate Closed(m: Db, gone: set<Key>) {
    forall k, h {:trigger h in m[k].refs} ::
      (k in m && k !in gone && h in m[k].refs && ActionOf(k.table, h) != NoForeignKey) ==>
        Key(Target(h), m[k].refs[h]) !in gone
  }

  lemma DropKeepsSound(m: Db, gone: set<Key>)
    requires Sound(m) && Closed(m, gone)
    ensures Sound(m - gone)
  {
    var d := m - gone;
    forall k, f {:trigger f in d[k].refs} | k in d && f in d[k].refs && f in {ChildRef, ParentRef, SubscriptionRef}
      ensures KeepsToFamily(d, k, f)
    {
      assert f in m[k].refs && KeepsToFamily(m, k, f);
    }
    assert Filled(d);
  }

  lemma ChildRowTables(m: Db, c: Id, k: Key)
    requires Shaped(m) && k in ChildRows(m, c)
    ensures k.table in CHILD_LEAVES + {SUBJECT_PROGRESS, CONVERSATIONS, AUTH_SESSIONS, TOPIC_PROGRESS, MESSAGES, CHILDREN}
    ensures k.table in {SUBJECT_PROGRESS, CONVERSATIONS} ==> k in m && Points(m[k], ChildRef, c)
    ensures k.table == CHILDREN ==> k.id == c
  {
    if k in m {
      ChildTables(k.table);
      assert ChildRef in m[k].refs ==> HasColumn(k.table, ChildRef);
    }
  }

  /** Columns into the tables a child's rows are in. */
  lemma ColumnsIntoChildRows(t: Table, h: Field)
    requires HasColumn(t, h)
    requires Target(h) in CHILD_LEAVES + {SUBJECT_PROGRESS, CONVERSATIONS, AUTH_SESSIONS, TOPIC_PROGRESS, MESSAGES, CHILDREN}
    ensures || h == ChildRef
            || (h == SubjectRef && t == TOPIC_PROGRESS)
            || (h == ConversationRef && t == MESSAGES)
  {
  }

  lemma ChildRowHolder(m: Db, c: Id, k: Key, h: Field)
    requires Shaped(m) && k in m && h in m[k].refs && Key(Target(h), m[k].refs[h]) in ChildRows(m, c)
    ensures k in ChildRows(m, c)
  {
    var t := Key(Target(h), m[k].refs[h]);
    ChildRowTables(m, c, t);
    assert HasColumn(k.table, h);
    ColumnsIntoChildRows(k.table, h);
    if h != ChildRef {
      assert Under(m, k, t.table, h, ChildRef, {c});
    }
  }

  lemma ChildRowsClosed(m: Db, c: Id)
    requires Shaped(m)
    ensures Closed(m, ChildRows(m, c))
  {
    forall k, h {:trigger h in m[k].refs} | k in m && h in m[k].refs && Key(Target(h), m[k].refs[h]) in ChildRows(m, c)
      ensures k in ChildRows(m, c)
    {
      ChildRowHolder(m, c, k, h);
    }
  }

  lemma SubscriptionRowsClosed(m: Db, s: Id)
    requires Shaped(m)
    ensures Closed(m, SubscriptionRows(m, s))
  {
    forall k, h {:trigger h in m[k].refs} | k in m && k !in SubscriptionRows(m, s) && h in m[k].refs
      ensures Key(Target(h), m[k].refs[h]) !in SubscriptionRows(m, s)
    {
      assert HasColumn(k.table, h);
    }
  }

  lemma TokensAreFree(m: Db, k: Key)
    requires k.table == PUSH_TOKENS
    ensures Closed(m, {k})
  {
    assert forall h :: Target(h) != PUSH_TOKENS;
  }

  lemma StepKeepsSound(m: Db, config: Config, op: Op, m': Db)
    requires Sound(m) && Step(m, config, op, m')
    ensures Sound(m')
  {
    match op {
      case PurgeChild(c, now) => ChildRowsClosed(m, c); DropKeepsSound(m, ChildRows(m, c));
      case PurgeSubscription(s, now) => SubscriptionRowsClosed(m, s); DropKeepsSound(m, SubscriptionRows(m, s));
      case PurgeFamily(f, now, choice) =>
        if m' != m { PurgeKeepsSchemaAndCoherence(m, f, config.policy, now, choice, m'); }
      case Write(_, _, _) =>
      case DeregisterToken(_, t) =>
        TokensAreFree(m, Key(PUSH_TOKENS, t));
        DropKeepsSound(m, {Key(PUSH_TOKENS, t)});
      case _ => MarkingKeepsRefs(m, config, op, m'); SameRefsKeepSound(m, m');
    }
  }

  lemma {:induction false} TraceKeepsSound(config: Config, states: seq<Db>, ops: seq<Op>, i: nat)
    requires Trace(config, states, ops) && Sound(states[0]) && i < |states|
    ensures Sound(states[i])
  {
    if i > 0 {
      TraceKeepsSound(config, states, ops, i - 1);
      StepKeepsSound(states[i - 1], config, ops[i - 1], states[i]);
    }
  }

  // ---- taking back and purging ----

  /** At any moment exactly one of the two acts on a marked account: the cancellation restores it,
      or the purge removes it. */
  lemma AccountWindowsComplement(m: Db, config: Config, f: Id, now: Time, choice: Choice, back: Db, purged: Db)
    requires Sound(m) && Key(FAMILIES, f) in m && m[Key(FAMILIES, f)].mark.Some?
    requires Step(m, config, CancelDeletion(f, now), back) && Step(m, config, PurgeFamily(f, now, choice), purged)
    ensures Unmarked(back, Key(FAMILIES, f)) <==> Key(FAMILIES, f) in purged
  {
    var k := Key(FAMILIES, f);
    WindowsFit(m[k].mark, now);
    if Due(m, k, now) {
      CoherentHasNoPins(m, f);
      PurgeTakesOnlyItsFamily(m, f, config.policy, now, choice, purged, k);
    }
  }

  /** The same for a canceled subscription: it is reactivated, or purged. */
  lemma SubscriptionWindowsComplement(m: Db, config: Config, s: Id, f: Id, now: Time, back: Db, purged: Db)
    requires Sound(m) && Key(SUBSCRIPTIONS, s) in m && Points(m[Key(SUBSCRIPTIONS, s)], FamilyRef, f)
    requires m[Key(SUBSCRIPTIONS, s)].mark.Some?
    requires Step(m, config, Reactivate(f, now), back) && Step(m, config, PurgeSubscription(s, now), purged)
    ensures Unmarked(back, Key(SUBSCRIPTIONS, s)) <==> Key(SUBSCRIPTIONS, s) in purged
  {
    WindowsFit(m[Key(SUBSCRIPTIONS, s)].mark, now);
  }

  /** A soft-deleted child is restorable or purgeable, and both only at the instant its window ends. */
  lemma ChildWindowsMeetOnce(m: Db, config: Config, c: Id, f: Id, now: Time, back: Db, purged: Db)
    requires Sound(m) && Key(CHILDREN, c) in m && Points(m[Key(CHILDREN, c)], FamilyRef, f)
    requires m[Key(CHILDREN, c)].mark.Some?
    requires Step(m, config, RestoreChild(f, c, now, true), back) && Step(m, config, PurgeChild(c, now), purged)
    ensures Unmarked(back, Key(CHILDREN, c)) || Key(CHILDREN, c) !in purged
    ensures Unmarked(back, Key(CHILDREN, c)) && Key(CHILDREN, c) !in purged <==> m[Key(CHILDREN, c)].mark == Some(now)
  {
    WindowsFit(m[Key(CHILDREN, c)].mark, now);
  }

  // ---- a row is deleted only when its root is marked and due ----

  function RootOf(op: Op): Key
    requires IsPurge(op)
  {
    match op
    case PurgeChild(c, _) => Key(CHILDREN, c)
    case PurgeSubscription(s, _) => Key(SUBSCRIPTIONS, s)
    case PurgeFamily(f, _, _) => Key(FAMILIES, f)
  }

  /** The rows a root takes with it. */
  predicate Beneath(m: Db, k: Key, root: Key)
    requires k in m
  {
    || k == root
    || (root.table == CHILDREN && OfChildren(m, k, {root.id}))
    || (root.table == SUBSCRIPTIONS && k.table in {INVOICES, PAYMENT_INTENTS} && Points(m[k], SubscriptionRef, root.id))
    || (root.table == FAMILIES && FamilyOf(m, k) == Some(root.id))
  }

  /** A step deletes a row only if it is the purge of a root that is marked and due right then,
      and the row is the root's, or its family takes back a device token. */
  lemma StepDeletesOnlyDue(m: Db, config: Config, op: Op, m': Db, k: Key)
    requires Sound(m) && Step(m, config, op, m') && k in m && k !in m'
    ensures (op.DeregisterToken? && k == Key(PUSH_TOKENS, op.token) && Points(m[k], FamilyRef, op.family))
         || (IsPurge(op) && Due(m, RootOf(op), op.now) && Beneath(m, k, RootOf(op)))
  {
    if IsMark(op) {
      MarkingKeepsRefs(m, config, op, m');
    }
    if op.PurgeFamily? {
      PurgeTakesOnlyItsFamily(m, op.family, config.policy, op.now, op.choice, m', k);
    }
  }

  /** A family takes back its own device token and nothing else. */
  lemma DeregistrationTakesTheToken(m: Db, config: Config, op: Op, m': Db, k: Key)
    requires Step(m, config, op, m') && op.DeregisterToken? && k in m
    ensures k in m' <==> !(k.table == PUSH_TOKENS && k.id == op.token && Points(m[k], FamilyRef, op.family))
    ensures k in m' ==> m'[k] == m[k]
  {
  }

  lemma OneChildsRows(m: Db, k: Key, child: Key, f: Id)
    requires Sound(m) && k in m && child in Sel(m, {CHILDREN}, FamilyRef, {f}) && OfChildren(m, k, {child.id})
    ensures FamilyOf(m, k) == Some(f)
  {
    assert child.id in ChildrenOf(m, f);
    assert OfChildren(m, k, ChildrenOf(m, f));
    ChildRowsAreOwn(m, f, k);
  }

  /** What a root takes with it is of its own family. */
  lemma BeneathIsOfTheFamily(m: Db, k: Key, root: Key)
    requires Sound(m) && k in m && root in m && root.table in ROOTS && Beneath(m, k, root)
    ensures FamilyOf(m, k) == FamilyOf(m, root)
  {
    if k == root {
    } else if root.table == CHILDREN {
      assert NotNull(CHILDREN, FamilyRef) && FamilyRef in m[root].refs;
      var f := m[root].refs[FamilyRef];
      PointingRows(m, f, root);
      assert root in Sel(m, {CHILDREN}, FamilyRef, {f});
      OneChildsRows(m, k, root, f);
    } else if root.table == SUBSCRIPTIONS {
      RefsStayInFamily(m, k, SubscriptionRef);
    }
  }

  /** Over a whole run: a row that is gone was deleted by a purge that found its root marked and
      due in its own transaction, or was a device token its family took back. */
  lemma {:induction false} GoneRowsWereDue(config: Config, states: seq<Db>, ops: seq<Op>, k: Key, n: nat)
    requires Trace(config, states, ops) && Sound(states[0])
    requires n < |states| && k in states[0] && k !in states[n]
    ensures exists i :: 0 <= i < n && k in states[i] && k !in states[i + 1]
              && (|| (ops[i].DeregisterToken? && k == Key(PUSH_TOKENS, ops[i].token) && Points(states[i][k], FamilyRef, ops[i].family))
                  || (IsPurge(ops[i]) && Due(states[i], RootOf(ops[i]), ops[i].now)
                      && Beneath(states[i], k, RootOf(ops[i]))))
  {
    if k in states[n - 1] {
      var i := n - 1;
      TraceKeepsSound(config, states, ops, i);
      StepDeletesOnlyDue(states[i], config, ops[i], states[i + 1], k);
    } else {
      GoneRowsWereDue(config, states, ops, k, n - 1);
    }
  }

  /** Removing closed sets of rows leaves the owners of the rows it leaves. */
  lemma DropKeepsFamily(m: Db, gone: set<Key>, k: Key)
    requires Sound(m) && Closed(m, gone) && k in m && k !in gone
    ensures FamilyOf(m - gone, k) == FamilyOf(m, k)
  {
    if OwnerColumn(k.table).Some? {
      var h := OwnerColumn(k.table).value;
      assert NotNull(k.table, h) && h in m[k].refs && ActionOf(k.table, h) != NoForeignKey;
      assert Key(Target(h), m[k].refs[h]) !in gone;
    }
  }

  lemma DroppedAround(m: Db, config: Config, op: Op, m': Db, k: Key)
    requires Sound(m) && Step(m, config, op, m') && (op.PurgeChild? || op.PurgeSubscription?) && k in m && k in m'
    ensures FamilyOf(m', k) == FamilyOf(m, k) && m'[k] == m[k]
  {
    if m' != m {
      match op {
        case PurgeChild(c, _) => ChildRowsClosed(m, c); DropKeepsFamily(m, ChildRows(m, c), k);
        case PurgeSubscription(s, _) => SubscriptionRowsClosed(m, s); DropKeepsFamily(m, SubscriptionRows(m, s), k);
      }
    }
  }

  lemma DeregisteredAround(m: Db, config: Config, op: Op, m': Db, k: Key)
    requires Sound(m) && Step(m, config, op, m') && op.DeregisterToken? && k in m && k in m'
    ensures FamilyOf(m', k) == FamilyOf(m, k) && m'[k] == m[k]
  {
    var t := Key(PUSH_TOKENS, op.token);
    if m' != m {
      TokensAreFree(m, t);
      DropKeepsFamily(m, {t}, k);
    }
  }

  // ---- a root nobody marks stays ----

  /** The operation marks this root for purge. */
  predicate Marks(op: Op, m: Db, root: Key)
    requires root in m
  {
    match op
    case SoftDeleteChild(_, c, _) => root == Key(CHILDREN, c)
    case RequestDeletion(f, _) => root == Key(FAMILIES, f)
    case CancelSubscription(f) => root.table == SUBSCRIPTIONS && Points(m[root], FamilyRef, f)
    case _ => false
  }

  lemma BeneathARootAlone(m: Db, k: Key, root: Key)
    requires Shaped(m) && k in m && k.table in ROOTS && Beneath(m, k, root) && root.table in {CHILDREN, SUBSCRIPTIONS}
    ensures k == root
  {
    assert ChildRef in m[k].refs ==> HasColumn(k.table, ChildRef);
  }

  lemma PurgeLeavesRoots(m: Db, config: Config, op: Op, m': Db, k: Key, f: Id)
    requires Sound(m) && Step(m, config, op, m') && IsPurge(op)
    requires k.table in ROOTS && k in m && k in m' && FamilyOf(m, k) == Some(f)
    ensures m'[k] == m[k] && FamilyOf(m', k) == Some(f)
  {
    if op.PurgeFamily? && m' != m {
      if f == op.family {
        KeptRowIs(m, f, config.policy, op.now, op.choice, m', k);
      } else {
        OtherRowKeepsFamily(m, op.family, config.policy, op.now, op.choice, m', k);
      }
    }
    assert k.table != FAMILIES ==> NotNull(k.table, FamilyRef) && FamilyRef in m[k].refs;
  }

  lemma RootStays(m: Db, config: Config, op: Op, m': Db, k: Key, f: Id)
    requires Sound(m) && Step(m, config, op, m')
    requires k.table in ROOTS && Unmarked(m, k) && FamilyOf(m, k) == Some(f) && Unmarked(m, Key(FAMILIES, f))
    requires !Marks(op, m, k)
    ensures Unmarked(m', k) && FamilyOf(m', k) == Some(f)
  {
    if k !in m' {
      StepDeletesOnlyDue(m, config, op, m', k);
      if RootOf(op).table != FAMILIES { BeneathARootAlone(m, k, RootOf(op)); }
      assert false;
    }
    if IsPurge(op) {
      PurgeLeavesRoots(m, config, op, m', k, f);
    } else if op.Write? {
      if m' != m { WriteKeepsFamily(m, op.owner, op.key, op.row, k); }
    } else if op.DeregisterToken? {
      DeregisteredAround(m, config, op, m', k);
    } else {
      MarkingKeepsRefs(m, config, op, m');
      SameRefsSameFamily(m, m', k);
    }
  }

  /** A root that is not marked, in a family that is not, outlives every step that marks neither. */
  lemma UnmarkedRootStays(m: Db, config: Config, op: Op, m': Db, k: Key, f: Id)
    requires Sound(m) && Step(m, config, op, m')
    requires k.table in ROOTS && Unmarked(m, k) && FamilyOf(m, k) == Some(f) && Unmarked(m, Key(FAMILIES, f))
    requires !Marks(op, m, k) && !Marks(op, m, Key(FAMILIES, f))
    ensures Unmarked(m', k) && FamilyOf(m', k) == Some(f) && Unmarked(m', Key(FAMILIES, f))
  {
    RootStays(m, config, op, m', k, f);
    RootStays(m, config, op, m', Key(FAMILIES, f), f);
  }

  /** Once restored, reactivated or taken back, a root stays for as long as nobody marks it or
      its family again, whatever purges run. */
  lemma {:induction false} UnmarkedRootOutlivesRun(config: Config, states: seq<Db>, ops: seq<Op>, k: Key, f: Id, n: nat)
    requires Trace(config, states, ops) && Sound(states[0]) && n < |states|
    requires k.table in ROOTS && Unmarked(states[0], k) && FamilyOf(states[0], k) == Some(f)
    requires Unmarked(states[0], Key(FAMILIES, f))
    requires forall i :: 0 <= i < |ops| && k in states[i] ==> !Marks(ops[i], states[i], k)
    requires forall i :: 0 <= i < |ops| && Key(FAMILIES, f) in states[i] ==> !Marks(ops[i], states[i], Key(FAMILIES, f))
    ensures Unmarked(states[n], k) && FamilyOf(states[n], k) == Some(f) && Unmarked(states[n], Key(FAMILIES, f))
  {
    if n > 0 {
      var i := n - 1;
      UnmarkedRootOutlivesRun(config, states, ops, k, f, i);
      TraceKeepsSound(config, states, ops, i);
      UnmarkedRootStays(states[i], config, ops[i], states[n], k, f);
    }
  }

  // ---- what the law keeps stays for good ----

  /** No account of the tombstone family exists, so no caller's operation names it. */
  predicate NamesTombstone(op: Op) {
    match op
    case SoftDeleteChild(f, _, _) => f == TOMBSTONE_FAMILY
    case RequestDeletion(f, _) => f == TOMBSTONE_FAMILY
    case CancelSubscription(f) => f == TOMBSTONE_FAMILY
    case Write(f, _, _) => f == Some(TOMBSTONE_FAMILY)
    case _ => false
  }

  ghost predicate OfTombstone(m: Db, k: Key) {
    k in m && FamilyOf(m, k) == Some(TOMBSTONE_FAMILY)
  }

  /** No root of the tombstone is marked, and no device is registered to it. */
  ghost predicate TombstoneUnmarked(m: Db) {
    && (forall k :: OfTombstone(m, k) && k.table in ROOTS ==> m[k].mark == None)
    && (forall k :: OfTombstone(m, k) ==> k.table != PUSH_TOKENS)
  }

  lemma RootHasFamilyColumn(m: Db, k: Key, f: Id)
    requires Sound(m) && k in m && k.table in {CHILDREN, SUBSCRIPTIONS}
    ensures FamilyOf(m, k) == Some(f) <==> Points(m[k], FamilyRef, f)
  {
    assert NotNull(k.table, FamilyRef) && FamilyRef in m[k].refs;
  }

  lemma MarkingSparesTombstone(m: Db, config: Config, op: Op, m': Db, k: Key)
    requires Sound(m) && TombstoneUnmarked(m) && Step(m, config, op, m') && IsMark(op) && !NamesTombstone(op)
    requires OfTombstone(m, k) && k.table in ROOTS
    ensures k in m' && m'[k].mark == None
  {
    if k.table != FAMILIES { RootHasFamilyColumn(m, k, TOMBSTONE_FAMILY); }
  }

  /** Marking another family changes no other row of the tombstone: the sessions it revokes are the
      marked family's. */
  lemma MarkingSparesTombstoneRows(m: Db, config: Config, op: Op, m': Db, k: Key)
    requires Sound(m) && Step(m, config, op, m') && IsMark(op) && !NamesTombstone(op)
    requires OfTombstone(m, k) && k.table !in ROOTS
    ensures k in m' && m'[k] == m[k]
  {
    if k.table == AUTH_SESSIONS {
      assert NotNull(AUTH_SESSIONS, FamilyRef) && FamilyRef in m[k].refs;
      assert Points(m[k], FamilyRef, TOMBSTONE_FAMILY);
      if op.SoftDeleteChild? && Points(m[k], ChildRef, op.child) {
        assert KeepsToFamily(m, k, ChildRef);
      }
    }
  }

  lemma PurgedRootFamily(m: Db, config: Config, op: Op, m': Db, k: Key)
    requires Sound(m) && Step(m, config, op, m') && IsPurge(op) && k in m && k in m' && k.table in ROOTS
    ensures m'[k] == m[k] && FamilyOf(m', k) == FamilyOf(m, k)
  {
    assert k.table != FAMILIES ==> NotNull(k.table, FamilyRef) && FamilyRef in m[k].refs;
    PurgeLeavesRoots(m, config, op, m', k, FamilyOf(m, k).value);
  }

  /** A root the purge leaves in the tombstone family was in it before, or is new. */
  lemma PurgeMarksNothing(m: Db, config: Config, op: Op, m': Db, k: Key)
    requires Sound(m) && TombstoneUnmarked(m) && Step(m, config, op, m') && IsPurge(op)
    requires OfTombstone(m', k) && k.table in ROOTS
    ensures m'[k].mark == None
  {
    if k !in m {
      NewRowIs(m, op.family, config.policy, op.now, op.choice, m', k);
    } else {
      PurgedRootFamily(m, config, op, m', k);
      assert OfTombstone(m, k);
    }
  }

  lemma StepMarksNoTombstoneRoot(m: Db, config: Config, op: Op, m': Db, k: Key)
    requires Sound(m) && TombstoneUnmarked(m) && Step(m, config, op, m') && !NamesTombstone(op)
    requires OfTombstone(m', k) && k.table in ROOTS
    ensures m'[k].mark == None
  {
    if IsPurge(op) {
      PurgeMarksNothing(m, config, op, m', k);
    } else if op.Write? {
      if k in m && m' != m { WriteKeepsFamily(m, op.owner, op.key, op.row, k); }
    } else if op.DeregisterToken? {
      DeregisteredAround(m, config, op, m', k);
    } else {
      MarkingKeepsRefs(m, config, op, m');
      SameRefsSameFamily(m, m', k);
      MarkingSparesTombstone(m, config, op, m', k);
    }
  }

  /** A token that belongs to the tombstone after a step did before. */
  lemma StepGivesNoToken(m: Db, config: Config, op: Op, m': Db, k: Key)
    requires Sound(m) && Step(m, config, op, m') && !NamesTombstone(op) && OfTombstone(m', k) && k.table == PUSH_TOKENS
    ensures OfTombstone(m, k)
  {
    if op.PurgeFamily? && m' != m {
      if k !in m { NewRowIs(m, op.family, config.policy, op.now, op.choice, m', k); }
      if FamilyOf(m, k) == Some(op.family) {
        KeptRowIs(m, op.family, config.policy, op.now, op.choice, m', k);
      } else {
        OtherRowKeepsFamily(m, op.family, config.policy, op.now, op.choice, m', k);
      }
    } else if op.PurgeChild? || op.PurgeSubscription? {
      DroppedAround(m, config, op, m', k);
    } else if op.Write? {
      if m' != m && k != op.key { WriteKeepsFamily(m, op.owner, op.key, op.row, k); }
    } else if op.DeregisterToken? {
      DeregisteredAround(m, config, op, m', k);
    } else if IsMark(op) {
      MarkingKeepsRefs(m, config, op, m');
      SameRefsSameFamily(m, m', k);
    }
  }

  lemma StepKeepsTombstoneUnmarked(m: Db, config: Config, op: Op, m': Db)
    requires Sound(m) && TombstoneUnmarked(m) && Step(m, config, op, m') && !NamesTombstone(op)
    ensures TombstoneUnmarked(m')
  {
    forall k | OfTombstone(m', k) && k.table in ROOTS ensures m'[k].mark == None {
      StepMarksNoTombstoneRoot(m, config, op, m', k);
    }
    forall k | OfTombstone(m', k) ensures k.table != PUSH_TOKENS {
      if k.table == PUSH_TOKENS { StepGivesNoToken(m, config, op, m', k); }
    }
  }

  /** Unless it is a root, the row is as it was. */
  predicate SameRow(m: Db, m': Db, k: Key) {
    k in m && k in m' && (k.table !in ROOTS ==> m'[k] == m[k])
  }

  lemma TombstoneRootsAreNotDue(m: Db, k: Key, root: Key, now: Time)
    requires Sound(m) && TombstoneUnmarked(m) && OfTombstone(m, k)
    requires root in m && root.table in ROOTS && Beneath(m, k, root)
    ensures !Due(m, root, now)
  {
    BeneathIsOfTheFamily(m, k, root);
    assert OfTombstone(m, root);
  }

  lemma TombstoneRowOutlivesPurge(m: Db, config: Config, op: Op, m': Db, k: Key)
    requires Sound(m) && TombstoneUnmarked(m) && Step(m, config, op, m') && IsPurge(op) && OfTombstone(m, k)
    ensures OfTombstone(m', k) && m'[k] == m[k]
  {
    if op.PurgeFamily? && m' != m {
      OtherRowKeepsFamily(m, op.family, config.policy, op.now, op.choice, m', k);
    } else if k !in m' {
      StepDeletesOnlyDue(m, config, op, m', k);
      TombstoneRootsAreNotDue(m, k, RootOf(op), op.now);
      assert false;
    } else if m' != m {
      DroppedAround(m, config, op, m', k);
    }
  }

  /** A row of the tombstone is never deleted, and stays the tombstone's. */
  lemma TombstoneRowStays(m: Db, config: Config, op: Op, m': Db, k: Key)
    requires Sound(m) && TombstoneUnmarked(m) && Step(m, config, op, m') && OfTombstone(m, k) && !NamesTombstone(op)
    ensures OfTombstone(m', k) && SameRow(m, m', k)
  {
    if IsPurge(op) {
      TombstoneRowOutlivesPurge(m, config, op, m', k);
    } else if op.Write? {
      if m' != m { WriteKeepsFamily(m, op.owner, op.key, op.row, k); }
    } else if op.DeregisterToken? {
      DeregisteredAround(m, config, op, m', k);
    } else {
      MarkingKeepsRefs(m, config, op, m');
      SameRefsSameFamily(m, m', k);
      if k.table !in ROOTS { MarkingSparesTombstoneRows(m, config, op, m', k); }
    }
  }

  lemma {:induction false} TraceKeepsTombstoneUnmarked(config: Config, states: seq<Db>, ops: seq<Op>, n: nat)
    requires Trace(config, states, ops) && Sound(states[0]) && TombstoneUnmarked(states[0])
    requires forall j :: 0 <= j < |ops| ==> !NamesTombstone(ops[j])
    requires n < |states|
    ensures TombstoneUnmarked(states[n])
  {
    if n > 0 {
      TraceKeepsTombstoneUnmarked(config, states, ops, n - 1);
      TraceKeepsSound(config, states, ops, n - 1);
      StepKeepsTombstoneUnmarked(states[n - 1], config, ops[n - 1], states[n]);
    }
  }

  lemma TombstoneRowStaysInRun(config: Config, states: seq<Db>, ops: seq<Op>, k: Key, n: nat)
    requires Trace(config, states, ops) && Sound(states[0]) && TombstoneUnmarked(states[0])
    requires forall j :: 0 <= j < |ops| ==> !NamesTombstone(ops[j])
    requires n < |ops| && OfTombstone(states[n], k)
    ensures OfTombstone(states[n + 1], k) && SameRow(states[n], states[n + 1], k)
  {
    TraceKeepsSound(config, states, ops, n);
    TraceKeepsTombstoneUnmarked(config, states, ops, n);
    TombstoneRowStays(states[n], config, ops[n], states[n + 1], k);
  }

  lemma SameRowChains(a: Db, b: Db, c: Db, k: Key)
    requires SameRow(a, b, k) && SameRow(b, c, k)
    ensures SameRow(a, c, k)
  {
  }

  /** Rows of the tombstone survive every run. */
  lemma {:induction false} TombstoneRowsSurviveRun(config: Config, states: seq<Db>, ops: seq<Op>, k: Key, i: nat, n: nat)
    requires Trace(config, states, ops) && Sound(states[0]) && TombstoneUnmarked(states[0])
    requires forall j :: 0 <= j < |ops| ==> !NamesTombstone(ops[j])
    requires i <= n < |states| && OfTombstone(states[i], k)
    ensures OfTombstone(states[n], k) && SameRow(states[i], states[n], k)
    decreases n
  {
    if i < n {
      TombstoneRowsSurviveRun(config, states, ops, k, i, n - 1);
      TombstoneRowStaysInRun(config, states, ops, k, n - 1);
      SameRowChains(states[i], states[n - 1], states[n], k);
    }
  }

  /** An invoice, or a consent that names no child, dated within the days its kind is kept when its
      family is purged, is there for good. */
  lemma LegallyKeptRowsSurviveRun(config: Config, states: seq<Db>, ops: seq<Op>, k: Key, i: nat, n: nat)
    requires Trace(config, states, ops) && Sound(states[0]) && TombstoneUnmarked(states[0])
    requires forall j :: 0 <= j < |ops| ==> !NamesTombstone(ops[j])
    requires i < n < |states| && ops[i].PurgeFamily? && Due(states[i], RootOf(ops[i]), ops[i].now)
    requires k in states[i] && FamilyOf(states[i], k) == Some(ops[i].family)
    requires var days, stamp := if k.table == INVOICES then config.policy.invoiceDays else config.policy.consentDays, states[i][k].stamp;
             && (k.table == INVOICES || (k.table == CONSENT_RECORDS && ChildRef !in states[i][k].refs))
             && days > 0 && stamp >= ops[i].now - days * DAY_MS
    ensures OfTombstone(states[n], k) && SameRow(states[i + 1], states[n], k)
  {
    var m, f, m' := states[i], ops[i].family, states[i + 1];
    TraceKeepsSound(config, states, ops, i);
    CoherentHasNoPins(m, f);
    PurgeTakesOnlyItsFamily(m, f, config.policy, ops[i].now, ops[i].choice, m', k);
    NothingOfTheFamilyIsLeft(m, f, config.policy, ops[i].now, ops[i].choice, m', k);
    TombstoneRowsSurviveRun(config, states, ops, k, i + 1, n);
  }
}
