/** Retain-then-purge: the family, child and subscription purges over the relational schema
    (src/modules/settings/settings.service.ts, src/modules/children/children.service.ts,
    src/modules/billing/billing.service.ts, prisma/schema.prisma).

    The database is one map from (table, id) to rows; a row keeps its reference columns, the one
    date its purge rule reads, and the date that marks it. Deleting checks the foreign keys the way
    the schema declares them. This module says what the delete program leaves, stage by stage;
    PurgeDatabase runs the program itself. */
module RetentionPurge {
  import opened Common

  /** Tables are numbered constants; a datatype of 26 cases would drown the proofs in case splits. */
  type Table = nat

  const FAMILIES: Table := 0
  const PARENTS: Table := 1
  const CHILDREN: Table := 2
  const PLANS: Table := 3
  const SUBSCRIPTIONS: Table := 4
  const INVOICES: Table := 5
  const PAYMENT_INTENTS: Table := 6
  const PAYMENT_METHODS: Table := 7
  const STUDY_SESSIONS: Table := 8
  const SUBJECT_PROGRESS: Table := 9
  const TOPIC_PROGRESS: Table := 10
  const HOMEWORK: Table := 11
  const REMINDER_CONFIGS: Table := 12
  const BADGES: Table := 13
  const NOTIFICATIONS: Table := 14
  const PUSH_TOKENS: Table := 15
  const STRUGGLE_TRACKERS: Table := 16
  const REWARDS: Table := 17
  const CONVERSATIONS: Table := 18
  const MESSAGES: Table := 19
  const CONSENT_RECORDS: Table := 20
  const DATA_EXPORTS: Table := 21
  const AUTH_SESSIONS: Table := 22
  const OAUTH_ACCOUNTS: Table := 23
  const EMAIL_TOKENS: Table := 24
  const INVITATIONS: Table := 25

  datatype Field =
    | FamilyRef | ParentRef | ChildRef | PlanRef | SubscriptionRef | SubjectRef | ConversationRef

  /** The table a reference column points into. */
  function Target(f: Field): Table {
    match f
    case FamilyRef => FAMILIES
    case ParentRef => PARENTS
    case ChildRef => CHILDREN
    case PlanRef => PLANS
    case SubscriptionRef => SUBSCRIPTIONS
    case SubjectRef => SUBJECT_PROGRESS
    case ConversationRef => CONVERSATIONS
  }

  const WITH_FAMILY: set<Table> := {
    PARENTS, CHILDREN, SUBSCRIPTIONS, PAYMENT_INTENTS, PAYMENT_METHODS, STUDY_SESSIONS, SUBJECT_PROGRESS,
    HOMEWORK, REMINDER_CONFIGS, BADGES, NOTIFICATIONS, PUSH_TOKENS, STRUGGLE_TRACKERS, REWARDS,
    CONVERSATIONS, CONSENT_RECORDS, DATA_EXPORTS, AUTH_SESSIONS, INVITATIONS
  }

  const WITH_CHILD: set<Table> := {
    STUDY_SESSIONS, SUBJECT_PROGRESS, HOMEWORK, REMINDER_CONFIGS, BADGES, NOTIFICATIONS, PUSH_TOKENS,
    STRUGGLE_TRACKERS, REWARDS, CONVERSATIONS, CONSENT_RECORDS, AUTH_SESSIONS
  }

  const WITH_PARENT: set<Table> := {
    PUSH_TOKENS, CONSENT_RECORDS, DATA_EXPORTS, AUTH_SESSIONS, OAUTH_ACCOUNTS, EMAIL_TOKENS, INVITATIONS
  }

  /** Whether a table has a reference column, null or not. */
  predicate HasColumn(t: Table, f: Field) {
    match f
    case FamilyRef => t in WITH_FAMILY
    case ParentRef => t in WITH_PARENT
    case ChildRef => t in WITH_CHILD
    case PlanRef => t == SUBSCRIPTIONS
    case SubscriptionRef => t == INVOICES || t == PAYMENT_INTENTS
    case SubjectRef => t == TOPIC_PROGRESS
    case ConversationRef => t == MESSAGES
  }

  datatype OnDelete = Restrict | Cascade | NoForeignKey

  function ActionOf(t: Table, f: Field): OnDelete {
    if f == ParentRef && t in {OAUTH_ACCOUNTS, EMAIL_TOKENS} then Cascade
    else if (f == FamilyRef && t == STRUGGLE_TRACKERS) || (f == ParentRef && t == PUSH_TOKENS) then NoForeignKey
    else Restrict
  }

  /** `stamp` is an invoice's issuedAt, a consent's grantedAt, a subscription's currentPeriodEnd.
      `mark` is the date that ends a row: purgeAfter of a soft-deleted child or family,
      canceledEffectiveAt of a CANCELED subscription, revokedAt of a session. */
  datatype Row = Row(refs: map<Field, Id>, stamp: Time, mark: Option<Time>)

  datatype Key = Key(table: Table, id: Id)

  type Db = map<Key, Row>

  predicate Points(r: Row, f: Field, id: Id) {
    f in r.refs && r.refs[f] == id
  }

  // ---- what the schema guarantees ----

  /** Rows have only their table's columns, and a subscription's plan is not null. */
  ghost predicate Shaped(m: Db) {
    && (forall k, f {:trigger HasColumn(k.table, f)} :: k in m && f in m[k].refs ==> HasColumn(k.table, f))
    && (forall k :: k in m && k.table == SUBSCRIPTIONS ==> PlanRef in m[k].refs)
  }

  ghost predicate ForeignKeysHold(m: Db) {
    forall k, f {:trigger ActionOf(k.table, f)} :: k in m && f in m[k].refs && ActionOf(k.table, f) != NoForeignKey
      ==> Key(Target(f), m[k].refs[f]) in m
  }

  /** Subscription.familyId is unique. */
  ghost predicate OneSubscription(m: Db) {
    forall j, k :: j in m && k in m && j.table == SUBSCRIPTIONS && k.table == SUBSCRIPTIONS
      && FamilyRef in m[j].refs && Points(m[k], FamilyRef, m[j].refs[FamilyRef])
      ==> j == k
  }

  ghost predicate Schema(m: Db) {
    Shaped(m) && ForeignKeysHold(m) && OneSubscription(m)
  }

  // ---- deleting ----

  /** A row outside `gone` whose column `f` restricts the deletion of `gone`. */
  predicate Holds(m: Db, k: Key, f: Field, gone: set<Key>) {
    && k in m && k !in gone && f in m[k].refs
    && ActionOf(k.table, f) == Restrict && Key(Target(f), m[k].refs[f]) in gone
  }

  predicate Blocked(m: Db, gone: set<Key>) {
    exists k, f :: k in m && f in m[k].refs && Holds(m, k, f, gone)
  }

  predicate CascadesFrom(m: Db, k: Key, f: Field, gone: set<Key>) {
    k in m && f in m[k].refs && ActionOf(k.table, f) == Cascade && Key(Target(f), m[k].refs[f]) in gone
  }

  function Cascaded(m: Db, gone: set<Key>): set<Key> {
    set k | k in m && exists f :: f in m[k].refs && CascadesFrom(m, k, f, gone)
  }

  /** The rows of some tables whose column holds one of the given ids. */
  function Sel(m: Db, ts: set<Table>, f: Field, ids: set<Id>): set<Key> {
    set k | k in m && k.table in ts && f in m[k].refs && m[k].refs[f] in ids
  }

  function IdsOf(ks: set<Key>): set<Id> {
    set k | k in ks :: k.id
  }

  /** No column points into the table. */
  predicate Leaf(t: Table) {
    t !in {FAMILIES, PARENTS, CHILDREN, PLANS, SUBSCRIPTIONS, SUBJECT_PROGRESS, CONVERSATIONS}
  }

  lemma LeavesAreFree(m: Db, gone: set<Key>)
    requires forall k :: k in gone ==> Leaf(k.table)
    ensures !Blocked(m, gone) && Cascaded(m, gone) == {}
  {
    forall k, f | k in m && f in m[k].refs
      ensures !Holds(m, k, f, gone) && !CascadesFrom(m, k, f, gone)
    {
      assert !Leaf(Target(f));
    }
  }

  // ---- what hangs off a child ----

  /** The row of `k` points at a row of `t` that points at one of the children. */
  predicate Under(m: Db, k: Key, t: Table, f: Field, g: Field, ids: set<Id>)
    requires k in m
  {
    && f in m[k].refs && Key(t, m[k].refs[f]) in m
    && var r := m[Key(t, m[k].refs[f])];
       g in r.refs && r.refs[g] in ids
  }

  /** Rows of the given children: their own, the topics of their subjects and the messages of
      their conversations. */
  predicate OfChildren(m: Db, k: Key, cs: set<Id>)
    requires k in m
  {
    || (ChildRef in m[k].refs && m[k].refs[ChildRef] in cs)
    || (k.table == TOPIC_PROGRESS && Under(m, k, SUBJECT_PROGRESS, SubjectRef, ChildRef, cs))
    || (k.table == MESSAGES && Under(m, k, CONVERSATIONS, ConversationRef, ChildRef, cs))
  }

  function ChildDependents(m: Db, cs: set<Id>): set<Key> {
    set k | k in m && OfChildren(m, k, cs)
  }

  function RowsUnder(m: Db, u: Table, t: Table, f: Field, g: Field, ids: set<Id>): set<Key> {
    set k | k in m && k.table == u && Under(m, k, t, f, g, ids)
  }

  /** The rows of `t` pointing at the ids, and the rows of `u` under them. */
  function WithLeaves(m: Db, t: Table, u: Table, f: Field, g: Field, ids: set<Id>): set<Key> {
    Sel(m, {t}, g, ids) + RowsUnder(m, u, t, f, g, ids)
  }

  /** Subjects own topics and conversations own messages, and nothing else points at either. */
  predicate OwnerOf(t: Table, u: Table, f: Field) {
    || (t, u, f) == (SUBJECT_PROGRESS, TOPIC_PROGRESS, SubjectRef)
    || (t, u, f) == (CONVERSATIONS, MESSAGES, ConversationRef)
  }

  lemma UnderByIds(m: Db, u: Table, t: Table, f: Field, g: Field, ids: set<Id>)
    ensures Sel(m, {u}, f, IdsOf(Sel(m, {t}, g, ids))) == RowsUnder(m, u, t, f, g, ids)
  {
    forall k | k in m && k.table == u
      ensures k in Sel(m, {u}, f, IdsOf(Sel(m, {t}, g, ids))) <==> Under(m, k, t, f, g, ids)
    {
      if Under(m, k, t, f, g, ids) {
        assert Key(t, m[k].refs[f]) in Sel(m, {t}, g, ids);
      }
    }
  }

  /** Once the rows under them are gone, the owners can be deleted. */
  lemma OwnersAreFree(m: Db, r: set<Key>, t: Table, u: Table, f: Field, gone: set<Key>)
    requires Shaped(m) && OwnerOf(t, u, f)
    requires forall k :: k in gone ==> k.table == t
    requires forall k :: k in m && k.table == u && f in m[k].refs && Key(t, m[k].refs[f]) in gone ==> k in r
    ensures !Blocked(m - r, gone) && Cascaded(m - r, gone) == {}
  {
    forall k, h | k in m - r && h in m[k].refs
      ensures !Holds(m - r, k, h, gone) && !CascadesFrom(m - r, k, h, gone)
    {
      assert HasColumn(k.table, h);
    }
  }

  lemma OwnerStages(m: Db, t: Table, u: Table, f: Field, g: Field, ids: set<Id>)
    requires t != u
    ensures var r := RowsUnder(m, u, t, f, g, ids);
            && Sel(m - r, {t}, g, ids) == Sel(m, {t}, g, ids)
            && (m - r) - Sel(m, {t}, g, ids) == m - WithLeaves(m, t, u, f, g, ids)
  {
    var r := RowsUnder(m, u, t, f, g, ids);
    assert forall k :: k in r ==> k.table != t;
  }

  const CHILD_LEAVES: set<Table> := {
    STRUGGLE_TRACKERS, PUSH_TOKENS, NOTIFICATIONS, REMINDER_CONFIGS, HOMEWORK, STUDY_SESSIONS,
    BADGES, REWARDS, CONSENT_RECORDS
  }

  lemma MinusAddsUp(m: Db, r: set<Key>, s: set<Key>)
    ensures (m - r) - (s - r) == m - (r + s)
  {
  }

  /** Selections on a table some rows are already gone from. */
  lemma SelAfter(m: Db, r: set<Key>, ts: set<Table>, f: Field, ids: set<Id>)
    ensures (m - r) - Sel(m - r, ts, f, ids) == m - (r + Sel(m, ts, f, ids))
  {
    assert Sel(m - r, ts, f, ids) == Sel(m, ts, f, ids) - r;
    MinusAddsUp(m, r, Sel(m, ts, f, ids));
  }

  /** Where an owner in `t` is already gone, so are the rows of `u` under it. */
  ghost predicate GoneWithOwners(m: Db, r: set<Key>, t: Table, u: Table, f: Field) {
    forall k {:trigger f in m[k].refs} ::
      k in m && k !in r && k.table == u && f in m[k].refs ==> Key(t, m[k].refs[f]) !in r
  }

  lemma UnderAfter(m: Db, r: set<Key>, k: Key, t: Table, u: Table, f: Field, g: Field, ids: set<Id>)
    requires k in m && k !in r && k.table == u && GoneWithOwners(m, r, t, u, f)
    ensures Under(m - r, k, t, f, g, ids) <==> Under(m, k, t, f, g, ids)
  {
    if f in m[k].refs {
      var o := Key(t, m[k].refs[f]);
      assert o !in r;
      assert o in m <==> o in m - r;
    }
  }

  lemma RowsUnderAfter(m: Db, r: set<Key>, t: Table, u: Table, f: Field, g: Field, ids: set<Id>)
    requires GoneWithOwners(m, r, t, u, f)
    ensures RowsUnder(m - r, u, t, f, g, ids) == RowsUnder(m, u, t, f, g, ids) - r
  {
    forall k
      ensures k in RowsUnder(m - r, u, t, f, g, ids) <==> k in RowsUnder(m, u, t, f, g, ids) - r
    {
      if k in m && k !in r && k.table == u {
        UnderAfter(m, r, k, t, u, f, g, ids);
      }
    }
  }

  lemma WithLeavesAfter(m: Db, r: set<Key>, t: Table, u: Table, f: Field, g: Field, ids: set<Id>)
    requires GoneWithOwners(m, r, t, u, f)
    ensures (m - r) - WithLeaves(m - r, t, u, f, g, ids) == m - (r + WithLeaves(m, t, u, f, g, ids))
  {
    RowsUnderAfter(m, r, t, u, f, g, ids);
    assert Sel(m - r, {t}, g, ids) == Sel(m, {t}, g, ids) - r;
    assert WithLeaves(m - r, t, u, f, g, ids) == WithLeaves(m, t, u, f, g, ids) - r;
    MinusAddsUp(m, r, WithLeaves(m, t, u, f, g, ids));
  }

  /** The tables with a child column. */
  lemma ChildTables(t: Table)
    ensures t in WITH_CHILD <==> t in CHILD_LEAVES + {SUBJECT_PROGRESS, CONVERSATIONS, AUTH_SESSIONS}
  {
  }

  /** A child's dependents, stage by stage. */
  lemma ChildDependentsByStage(m: Db, cs: set<Id>)
    requires Shaped(m)
    ensures ChildDependents(m, cs)
         == WithLeaves(m, SUBJECT_PROGRESS, TOPIC_PROGRESS, SubjectRef, ChildRef, cs)
            + Sel(m, CHILD_LEAVES, ChildRef, cs)
            + WithLeaves(m, CONVERSATIONS, MESSAGES, ConversationRef, ChildRef, cs)
            + Sel(m, {AUTH_SESSIONS}, ChildRef, cs)
  {
    forall k | k in m ensures ChildRef in m[k].refs ==> k.table in CHILD_LEAVES + {SUBJECT_PROGRESS, CONVERSATIONS, AUTH_SESSIONS} {
      assert ChildRef in m[k].refs ==> HasColumn(k.table, ChildRef);
      ChildTables(k.table);
    }
  }

  /** The four stages of clearing a child remove exactly its dependents. */
  lemma ChildStages(m: Db, cs: set<Id>)
    requires Shaped(m)
    ensures var m1 := m - WithLeaves(m, SUBJECT_PROGRESS, TOPIC_PROGRESS, SubjectRef, ChildRef, cs);
            var m2 := m1 - Sel(m1, CHILD_LEAVES, ChildRef, cs);
            var m3 := m2 - WithLeaves(m2, CONVERSATIONS, MESSAGES, ConversationRef, ChildRef, cs);
            m3 - Sel(m3, {AUTH_SESSIONS}, ChildRef, cs) == m - ChildDependents(m, cs)
  {
    var r1 := WithLeaves(m, SUBJECT_PROGRESS, TOPIC_PROGRESS, SubjectRef, ChildRef, cs);
    var r2 := r1 + Sel(m, CHILD_LEAVES, ChildRef, cs);
    SelAfter(m, r1, CHILD_LEAVES, ChildRef, cs);
    forall k | k in r2 ensures k.table != CONVERSATIONS {
      assert k.table in CHILD_LEAVES + {SUBJECT_PROGRESS, TOPIC_PROGRESS};
    }
    var r3 := r2 + WithLeaves(m, CONVERSATIONS, MESSAGES, ConversationRef, ChildRef, cs);
    WithLeavesAfter(m, r2, CONVERSATIONS, MESSAGES, ConversationRef, ChildRef, cs);
    SelAfter(m, r3, {AUTH_SESSIONS}, ChildRef, cs);
    ChildDependentsByStage(m, cs);
  }

  // ---- what hangs off a family ----

  const FAMILY_LEAVES: set<Table> := {NOTIFICATIONS, REMINDER_CONFIGS, HOMEWORK, STUDY_SESSIONS, BADGES, REWARDS}

  const ACCOUNT_LEAVES: set<Table> := {
    PUSH_TOKENS, AUTH_SESSIONS, INVITATIONS, DATA_EXPORTS, PAYMENT_METHODS, PAYMENT_INTENTS
  }

  function ChildrenOf(m: Db, f: Id): set<Id> {
    IdsOf(Sel(m, {CHILDREN}, FamilyRef, {f}))
  }

  /** Children that were cleared one after another. */
  lemma OneMoreChild(m: Db, done: set<Id>, c: Id)
    requires Shaped(m)
    ensures var r := ChildDependents(m, done);
            (m - r) - ChildDependents(m - r, {c}) == m - ChildDependents(m, done + {c})
  {
    var r := ChildDependents(m, done);
    forall k | k in m && k !in r
      ensures OfChildren(m - r, k, {c}) <==> OfChildren(m, k, done + {c})
    {
      if k.table == TOPIC_PROGRESS {
        UnderAfter(m, r, k, SUBJECT_PROGRESS, TOPIC_PROGRESS, SubjectRef, ChildRef, {c});
      }
      if k.table == MESSAGES {
        UnderAfter(m, r, k, CONVERSATIONS, MESSAGES, ConversationRef, ChildRef, {c});
      }
    }
  }

  /** After the dependents of all its children, nothing holds the children of a family. */
  lemma ChildrenAreFree(m: Db, cs: set<Id>, gone: set<Key>)
    requires Shaped(m) && forall k :: k in gone ==> k.table == CHILDREN && k.id in cs
    ensures var r := ChildDependents(m, cs);
            !Blocked(m - r, gone) && Cascaded(m - r, gone) == {}
  {
    var r := ChildDependents(m, cs);
    forall k, h | k in m - r && h in m[k].refs
      ensures !Holds(m - r, k, h, gone) && !CascadesFrom(m - r, k, h, gone)
    {
      assert HasColumn(k.table, h);
    }
  }

  function ChildrenAndBelow(m: Db, f: Id): set<Key> {
    ChildDependents(m, ChildrenOf(m, f)) + Sel(m, {CHILDREN}, FamilyRef, {f})
  }

  lemma ChildrenLast(m: Db, f: Id)
    requires Shaped(m)
    ensures var m1 := m - ChildDependents(m, ChildrenOf(m, f));
            var gone := Sel(m1, {CHILDREN}, FamilyRef, {f});
            && !Blocked(m1, gone) && Cascaded(m1, gone) == {}
            && m1 - gone == m - ChildrenAndBelow(m, f)
  {
    var r := ChildDependents(m, ChildrenOf(m, f));
    forall k | k in r ensures k.table != CHILDREN {
      assert ChildRef in m[k].refs ==> HasColumn(k.table, ChildRef);
      ChildTables(CHILDREN);
    }
    var gone := Sel(m, {CHILDREN}, FamilyRef, {f});
    assert Sel(m - r, {CHILDREN}, FamilyRef, {f}) == gone;
    ChildrenAreFree(m, ChildrenOf(m, f), gone);
  }

  /** The rows of a family that no legal retention concerns, apart from its parents, its
      subscription and the family row itself. */
  predicate OfFamilyRows(m: Db, k: Key, f: Id)
    requires k in m
  {
    || OfChildren(m, k, ChildrenOf(m, f))
    || (k.table in FAMILY_LEAVES + ACCOUNT_LEAVES + {CHILDREN, CONVERSATIONS, SUBJECT_PROGRESS} && Points(m[k], FamilyRef, f))
    || (k.table == TOPIC_PROGRESS && Under(m, k, SUBJECT_PROGRESS, SubjectRef, FamilyRef, {f}))
    || (k.table == MESSAGES && Under(m, k, CONVERSATIONS, ConversationRef, FamilyRef, {f}))
  }

  function FamilyRows(m: Db, f: Id): set<Key> {
    set k | k in m && OfFamilyRows(m, k, f)
  }

  lemma FamilyRowsByStage(m: Db, f: Id)
    ensures FamilyRows(m, f)
         == ChildrenAndBelow(m, f)
            + WithLeaves(m, CONVERSATIONS, MESSAGES, ConversationRef, FamilyRef, {f})
            + Sel(m, FAMILY_LEAVES, FamilyRef, {f})
            + WithLeaves(m, SUBJECT_PROGRESS, TOPIC_PROGRESS, SubjectRef, FamilyRef, {f})
            + Sel(m, ACCOUNT_LEAVES, FamilyRef, {f})
  {
  }

  lemma OwnersGoWithChildren(m: Db, f: Id)
    ensures GoneWithOwners(m, ChildrenAndBelow(m, f), CONVERSATIONS, MESSAGES, ConversationRef)
    ensures GoneWithOwners(m, ChildrenAndBelow(m, f), SUBJECT_PROGRESS, TOPIC_PROGRESS, SubjectRef)
  {
  }

  function FirstRows(m: Db, f: Id): set<Key> {
    ChildrenAndBelow(m, f) + WithLeaves(m, CONVERSATIONS, MESSAGES, ConversationRef, FamilyRef, {f})
    + Sel(m, FAMILY_LEAVES, FamilyRef, {f})
  }

  /** The first stages of clearing a family's rows: its children, conversations and leaves. */
  lemma FirstFamilyStages(m: Db, f: Id)
    ensures var m1 := m - ChildrenAndBelow(m, f);
            var m2 := m1 - WithLeaves(m1, CONVERSATIONS, MESSAGES, ConversationRef, FamilyRef, {f});
            m2 - Sel(m2, FAMILY_LEAVES, FamilyRef, {f}) == m - FirstRows(m, f)
  {
    var r1 := ChildrenAndBelow(m, f);
    OwnersGoWithChildren(m, f);
    WithLeavesAfter(m, r1, CONVERSATIONS, MESSAGES, ConversationRef, FamilyRef, {f});
    SelAfter(m, r1 + WithLeaves(m, CONVERSATIONS, MESSAGES, ConversationRef, FamilyRef, {f}), FAMILY_LEAVES, FamilyRef, {f});
  }

  lemma TopicsGoWithSubjects(m: Db, f: Id)
    ensures GoneWithOwners(m, FirstRows(m, f), SUBJECT_PROGRESS, TOPIC_PROGRESS, SubjectRef)
  {
    OwnersGoWithChildren(m, f);
    forall k | k in FirstRows(m, f) - ChildrenAndBelow(m, f) ensures k.table != SUBJECT_PROGRESS {}
  }

  /** The stages of clearing a family's rows remove exactly those. */
  lemma FamilyStages(m: Db, f: Id)
    ensures var m3 := m - FirstRows(m, f);
            var m4 := m3 - WithLeaves(m3, SUBJECT_PROGRESS, TOPIC_PROGRESS, SubjectRef, FamilyRef, {f});
            m4 - Sel(m4, ACCOUNT_LEAVES, FamilyRef, {f}) == m - FamilyRows(m, f)
  {
    var r3 := FirstRows(m, f);
    TopicsGoWithSubjects(m, f);
    WithLeavesAfter(m, r3, SUBJECT_PROGRESS, TOPIC_PROGRESS, SubjectRef, FamilyRef, {f});
    SelAfter(m, r3 + WithLeaves(m, SUBJECT_PROGRESS, TOPIC_PROGRESS, SubjectRef, FamilyRef, {f}), ACCOUNT_LEAVES, FamilyRef, {f});
    FamilyRowsByStage(m, f);
  }

  // ---- legal retention ----

  /** INVOICE_LEGAL_RETAIN_DAYS and CONSENT_LEGAL_RETAIN_DAYS. */
  datatype Policy = Policy(invoiceDays: nat, consentDays: nat)

  const TOMBSTONE_FAMILY: Id := "legal-retention-tombstone"

  /** What the database returns when the tombstone subscription must be created: the new id, and
      some plan if there is one. */
  datatype Choice = Choice(subId: Id, planId: Option<Id>)

  ghost predicate Allowed(m: Db, choice: Choice) {
    && Key(SUBSCRIPTIONS, choice.subId) !in m
    && (if choice.planId.Some? then Key(PLANS, choice.planId.value) in m
        else forall k :: k in m ==> k.table != PLANS)
  }

  predicate Retained(days: nat, now: Time, stamp: Time) {
    days > 0 && stamp >= now - days * DAY_MS
  }

  function WithTombFamily(m: Db): Db {
    if Key(FAMILIES, TOMBSTONE_FAMILY) in m then m
    else m[Key(FAMILIES, TOMBSTONE_FAMILY) := Row(map[], 0, None)]
  }

  function TombSubs(m: Db): set<Key> {
    Sel(m, {SUBSCRIPTIONS}, FamilyRef, {TOMBSTONE_FAMILY})
  }

  ghost function PickId(ks: set<Key>): Id
    requires ks != {}
  {
    var k :| k in ks; k.id
  }

  ghost function TombSubId(m: Db, choice: Choice): Id {
    if TombSubs(m) != {} then PickId(TombSubs(m)) else choice.subId
  }

  /** No deadline: CANCELED without canceledEffectiveAt, so no purge rule ever matches it. */
  function TombSubRow(choice: Choice): Row {
    Row(map[FamilyRef := TOMBSTONE_FAMILY] + (if choice.planId.Some? then map[PlanRef := choice.planId.value] else map[]),
        0, None)
  }

  function WithTombstone(m: Db, choice: Choice): Db {
    if TombSubs(m) != {} then WithTombFamily(m)
    else WithTombFamily(m)[Key(SUBSCRIPTIONS, choice.subId) := TombSubRow(choice)]
  }

  function Repoint(m: Db, ks: set<Key>, f: Field, to: Id): Db {
    map k | k in m :: if k in ks then m[k].(refs := m[k].refs[f := to]) else m[k]
  }

  function Detach(r: Row): Row {
    r.(refs := (r.refs - {ParentRef, ChildRef})[FamilyRef := TOMBSTONE_FAMILY])
  }

  function DetachAll(m: Db, ks: set<Key>): Db {
    map k | k in m :: if k in ks then Detach(m[k]) else m[k]
  }

  function Kept(m: Db, t: Table, f: Field, id: Id, days: nat, now: Time): set<Key> {
    set k | k in Sel(m, {t}, f, {id}) && Retained(days, now, m[k].stamp)
  }

  function Expired(m: Db, t: Table, f: Field, id: Id, days: nat, now: Time): set<Key> {
    set k | k in Sel(m, {t}, f, {id}) && !Retained(days, now, m[k].stamp)
  }

  ghost function InvoicesSettled(m: Db, sub: Id, days: nat, now: Time, choice: Choice): Db {
    var m1 := m - Expired(m, INVOICES, SubscriptionRef, sub, days, now);
    var kept := Kept(m, INVOICES, SubscriptionRef, sub, days, now);
    if kept == {} then m1
    else Repoint(WithTombstone(m1, choice), kept, SubscriptionRef, TombSubId(m, choice))
  }

  function ConsentSettled(m: Db, f: Id, days: nat, now: Time): Db {
    var m1 := m - Expired(m, CONSENT_RECORDS, FamilyRef, f, days, now);
    var kept := Kept(m, CONSENT_RECORDS, FamilyRef, f, days, now);
    if kept == {} then m1 else DetachAll(WithTombFamily(m1), kept)
  }

  /** Which invoices of a subscription are left, by date; those carry the tombstone's id. */
  lemma InvoicesLeft(m: Db, sub: Id, days: nat, now: Time, choice: Choice, k: Key)
    requires k in m && k.table == INVOICES && Points(m[k], SubscriptionRef, sub)
    ensures var left := InvoicesSettled(m, sub, days, now, choice);
            && (k in left <==> days > 0 && m[k].stamp >= now - days * DAY_MS)
            && (k in left ==> left[k].stamp == m[k].stamp && Points(left[k], SubscriptionRef, TombSubId(m, choice)))
  {
    assert k in Kept(m, INVOICES, SubscriptionRef, sub, days, now) <==> days > 0 && m[k].stamp >= now - days * DAY_MS;
    assert k in Expired(m, INVOICES, SubscriptionRef, sub, days, now) <==> !(days > 0 && m[k].stamp >= now - days * DAY_MS);
  }

  /** Which consents of a family are left, by date; those name the tombstone family alone. */
  lemma ConsentsLeft(m: Db, f: Id, days: nat, now: Time, k: Key)
    requires k in m && k.table == CONSENT_RECORDS && Points(m[k], FamilyRef, f)
    ensures var left := ConsentSettled(m, f, days, now);
            && (k in left <==> days > 0 && m[k].stamp >= now - days * DAY_MS)
            && (k in left ==> left[k].stamp == m[k].stamp && Points(left[k], FamilyRef, TOMBSTONE_FAMILY)
                              && ParentRef !in left[k].refs && ChildRef !in left[k].refs)
  {
    assert k in Kept(m, CONSENT_RECORDS, FamilyRef, f, days, now) <==> days > 0 && m[k].stamp >= now - days * DAY_MS;
    assert k in Expired(m, CONSENT_RECORDS, FamilyRef, f, days, now) <==> !(days > 0 && m[k].stamp >= now - days * DAY_MS);
  }

  // ---- the outcome of a family purge ----

  function SubsOf(m: Db, f: Id): set<Id> {
    IdsOf(Sel(m, {SUBSCRIPTIONS}, FamilyRef, {f}))
  }

  function ParentsOf(m: Db, f: Id): set<Id> {
    IdsOf(Sel(m, {PARENTS}, FamilyRef, {f}))
  }

  predicate PointsInto(r: Row, f: Field, ids: set<Id>) {
    f in r.refs && r.refs[f] in ids
  }

  datatype Fate = Stays | Goes | InvoiceKept | ConsentKept

  /** What happens to each row, said of the row alone. */
  function FateOf(m: Db, f: Id, policy: Policy, now: Time, k: Key): Fate
    requires k in m
  {
    var r := m[k];
    if k.table == INVOICES && PointsInto(r, SubscriptionRef, SubsOf(m, f)) then
      if Retained(policy.invoiceDays, now, r.stamp) then InvoiceKept else Goes
    else if OfFamilyRows(m, k, f) then Goes
    else if k.table == CONSENT_RECORDS && Points(r, FamilyRef, f) then
      if Retained(policy.consentDays, now, r.stamp) then ConsentKept else Goes
    else if k.table in {SUBSCRIPTIONS, PARENTS} && Points(r, FamilyRef, f) then Goes
    else if k.table in {OAUTH_ACCOUNTS, EMAIL_TOKENS} && PointsInto(r, ParentRef, ParentsOf(m, f)) then Goes
    else if k == Key(FAMILIES, f) then Goes
    else Stays
  }

  ghost predicate KeepsInvoice(m: Db, f: Id, policy: Policy, now: Time) {
    exists k :: k in m && FateOf(m, f, policy, now, k) == InvoiceKept
  }

  ghost predicate KeepsConsent(m: Db, f: Id, policy: Policy, now: Time) {
    exists k :: k in m && FateOf(m, f, policy, now, k) == ConsentKept
  }

  /** The rows the tombstone gains: its family, and its subscription if an invoice needs one. */
  ghost predicate NewTombRow(m: Db, f: Id, policy: Policy, now: Time, choice: Choice, k: Key) {
    || (k == Key(FAMILIES, TOMBSTONE_FAMILY) && k !in m
        && (KeepsInvoice(m, f, policy, now) || KeepsConsent(m, f, policy, now)))
    || (k == Key(SUBSCRIPTIONS, choice.subId) && TombSubs(m) == {} && KeepsInvoice(m, f, policy, now))
  }

  ghost function Outcome(m: Db, f: Id, policy: Policy, now: Time, choice: Choice, k: Key): Row {
    if k in m then
      match FateOf(m, f, policy, now, k)
      case InvoiceKept => m[k].(refs := m[k].refs[SubscriptionRef := TombSubId(m, choice)])
      case ConsentKept => Detach(m[k])
      case _ => m[k]
    else if k.table == FAMILIES then Row(map[], 0, None)
    else TombSubRow(choice)
  }

  ghost predicate Fated(m: Db, f: Id, policy: Policy, now: Time, choice: Choice, m': Db, k: Key) {
    && (k in m' <==> if k in m then FateOf(m, f, policy, now, k) != Goes else NewTombRow(m, f, policy, now, choice, k))
    && (k in m' ==> m'[k] == Outcome(m, f, policy, now, choice, k))
  }

  /** The database after the purge, row by row. */
  ghost predicate IsPurged(m: Db, f: Id, policy: Policy, now: Time, choice: Choice, m': Db) {
    forall k :: Fated(m, f, policy, now, choice, m', k)
  }

  /** The only rows that can stop the purge: another family's payment intent on the family's
      subscription, or another family's row on one of its parents. */
  predicate Pin(m: Db, f: Id, k: Key)
    requires k in m
  {
    && !Points(m[k], FamilyRef, f)
    && (|| (k.table == PAYMENT_INTENTS && PointsInto(m[k], SubscriptionRef, SubsOf(m, f)))
        || (ActionOf(k.table, ParentRef) == Restrict && PointsInto(m[k], ParentRef, ParentsOf(m, f))
            && !OfChildren(m, k, ChildrenOf(m, f))))
  }

  predicate PinnedBySub(m: Db, f: Id) {
    exists k :: k in m && k.table == PAYMENT_INTENTS && Pin(m, f, k)
  }

  predicate PinnedByParent(m: Db, f: Id) {
    exists k :: k in m && k.table != PAYMENT_INTENTS && Pin(m, f, k)
  }

  // ---- the stages of the purge ----

  ghost function AfterSub(m: Db, f: Id, policy: Policy, now: Time, choice: Choice): Db {
    var m1 := m - FamilyRows(m, f);
    var subs := Sel(m1, {SUBSCRIPTIONS}, FamilyRef, {f});
    if subs == {} then m1
    else InvoicesSettled(m1, PickId(subs), policy.invoiceDays, now, choice) - subs
  }

  function AfterParents(m: Db, f: Id): Db {
    var ps := Sel(m, {PARENTS}, FamilyRef, {f});
    m - (ps + Cascaded(m, ps))
  }

  /** No stage but its own touches the rows that legal retention and the accounts hang on. */
  lemma FamilyRowsTables(m: Db, f: Id, k: Key)
    requires Shaped(m) && k in FamilyRows(m, f)
    ensures k.table !in {FAMILIES, PARENTS, PLANS, SUBSCRIPTIONS, INVOICES, OAUTH_ACCOUNTS, EMAIL_TOKENS}
    ensures k.table == CONSENT_RECORDS ==> OfChildren(m, k, ChildrenOf(m, f))
  {
    assert ChildRef in m[k].refs ==> HasColumn(k.table, ChildRef);
    ChildTables(k.table);
  }

  lemma SubsAfterRows(m: Db, f: Id, g: Id)
    requires Shaped(m)
    ensures Sel(m - FamilyRows(m, f), {SUBSCRIPTIONS}, FamilyRef, {g}) == Sel(m, {SUBSCRIPTIONS}, FamilyRef, {g})
  {
    forall k | k in Sel(m, {SUBSCRIPTIONS}, FamilyRef, {g}) ensures k !in FamilyRows(m, f) {
      if k in FamilyRows(m, f) { FamilyRowsTables(m, f, k); }
    }
  }

  lemma InvoicesAfterRows(m: Db, f: Id, s: Id, days: nat, now: Time)
    requires Shaped(m)
    ensures var m1 := m - FamilyRows(m, f);
            && Kept(m1, INVOICES, SubscriptionRef, s, days, now) == Kept(m, INVOICES, SubscriptionRef, s, days, now)
            && Expired(m1, INVOICES, SubscriptionRef, s, days, now) == Expired(m, INVOICES, SubscriptionRef, s, days, now)
  {
    forall k | k in Sel(m, {INVOICES}, SubscriptionRef, {s}) ensures k !in FamilyRows(m, f) {
      if k in FamilyRows(m, f) { FamilyRowsTables(m, f, k); }
    }
  }

  /** A family has at most one subscription. */
  lemma TheSubscription(m: Db, f: Id, k: Key)
    requires OneSubscription(m) && k in Sel(m, {SUBSCRIPTIONS}, FamilyRef, {f})
    ensures Sel(m, {SUBSCRIPTIONS}, FamilyRef, {f}) == {k} && SubsOf(m, f) == {k.id}
  {
  }

  predicate SubInvoice(m: Db, f: Id, k: Key)
    requires k in m
  {
    k.table == INVOICES && PointsInto(m[k], SubscriptionRef, SubsOf(m, f))
  }

  /** The kept invoices of the subscription are those whose fate says so. */
  lemma KeptInvoices(m: Db, f: Id, policy: Policy, now: Time, s: Id)
    requires OneSubscription(m) && Key(SUBSCRIPTIONS, s) in Sel(m, {SUBSCRIPTIONS}, FamilyRef, {f})
    ensures var kept := Kept(m, INVOICES, SubscriptionRef, s, policy.invoiceDays, now);
            && (forall k :: k in m ==> (k in kept <==> SubInvoice(m, f, k) && Retained(policy.invoiceDays, now, m[k].stamp)))
            && (KeepsInvoice(m, f, policy, now) <==> kept != {})
  {
    TheSubscription(m, f, Key(SUBSCRIPTIONS, s));
    var kept := Kept(m, INVOICES, SubscriptionRef, s, policy.invoiceDays, now);
    if kept != {} {
      var k :| k in kept;
      assert FateOf(m, f, policy, now, k) == InvoiceKept;
    }
  }

  lemma NoKeptInvoices(m: Db, f: Id, policy: Policy, now: Time)
    requires Sel(m, {SUBSCRIPTIONS}, FamilyRef, {f}) == {}
    ensures !KeepsInvoice(m, f, policy, now) && SubsOf(m, f) == {}
  {
  }

  /** The kept invoices moved to the tombstone's subscription. */
  function Rehomed(m: Db, kept: set<Key>, choice: Choice, to: Id): Db {
    if kept == {} then m else Repoint(WithTombstone(m, choice), kept, SubscriptionRef, to)
  }

  /** The subscription stage, given the family's subscription. */
  lemma SubStageIs(m: Db, f: Id, policy: Policy, now: Time, choice: Choice, s: Id)
    requires Schema(m) && f != TOMBSTONE_FAMILY && Allowed(m, choice)
    requires Key(SUBSCRIPTIONS, s) in Sel(m, {SUBSCRIPTIONS}, FamilyRef, {f})
    ensures var m2 := m - FamilyRows(m, f) - Expired(m, INVOICES, SubscriptionRef, s, policy.invoiceDays, now);
            && TombSubs(m2) == TombSubs(m)
            && AfterSub(m, f, policy, now, choice) ==
                 Rehomed(m2, Kept(m, INVOICES, SubscriptionRef, s, policy.invoiceDays, now), choice, TombSubId(m, choice))
                 - {Key(SUBSCRIPTIONS, s)}
  {
    SubsAfterRows(m, f, f);
    SubsAfterRows(m, f, TOMBSTONE_FAMILY);
    TheSubscription(m, f, Key(SUBSCRIPTIONS, s));
    InvoicesAfterRows(m, f, s, policy.invoiceDays, now);
    var m1 := m - FamilyRows(m, f);
    var m2 := m1 - Expired(m, INVOICES, SubscriptionRef, s, policy.invoiceDays, now);
    assert TombSubs(m2) == TombSubs(m1);
  }

  lemma RehomeOld(m: Db, kept: set<Key>, choice: Choice, to: Id, k: Key)
    requires k in m && k != Key(SUBSCRIPTIONS, choice.subId)
    ensures var d := Rehomed(m, kept, choice, to);
            k in d && d[k] == if k in kept then m[k].(refs := m[k].refs[SubscriptionRef := to]) else m[k]
  {
  }

  lemma RehomeGone(m: Db, kept: set<Key>, choice: Choice, to: Id, k: Key)
    requires k !in m && k !in kept && k.table !in {FAMILIES, SUBSCRIPTIONS}
    ensures k !in Rehomed(m, kept, choice, to)
  {
  }

  lemma RehomeNew(m: Db, kept: set<Key>, choice: Choice, to: Id, k: Key)
    requires k !in m && k !in kept
    ensures var d := Rehomed(m, kept, choice, to);
            && (k in d <==> kept != {} && (k == Key(FAMILIES, TOMBSTONE_FAMILY)
                                           || (k == Key(SUBSCRIPTIONS, choice.subId) && TombSubs(m) == {})))
            && (k in d ==> d[k] == if k.table == FAMILIES then Row(map[], 0, None) else TombSubRow(choice))
  {
  }

  /** Where the subscription stage leaves a row that was there. */
  ghost predicate SubStageKeeps(m: Db, f: Id, policy: Policy, now: Time, k: Key)
    requires k in m
  {
    if SubInvoice(m, f, k) then Retained(policy.invoiceDays, now, m[k].stamp)
    else k !in FamilyRows(m, f) && !(k.table == SUBSCRIPTIONS && Points(m[k], FamilyRef, f))
  }

  lemma SubStageOldFound(m: Db, f: Id, policy: Policy, now: Time, choice: Choice, k: Key, s: Id)
    requires Schema(m) && f != TOMBSTONE_FAMILY && Allowed(m, choice) && k in m
    requires Key(SUBSCRIPTIONS, s) in Sel(m, {SUBSCRIPTIONS}, FamilyRef, {f})
    requires k in FamilyRows(m, f) ==> k.table !in {SUBSCRIPTIONS, INVOICES, FAMILIES}
    ensures var d := AfterSub(m, f, policy, now, choice);
            && (k in d <==> SubStageKeeps(m, f, policy, now, k))
            && (k in d ==> d[k] == if SubInvoice(m, f, k) then m[k].(refs := m[k].refs[SubscriptionRef := TombSubId(m, choice)])
                                   else m[k])
  {
    KeptInvoices(m, f, policy, now, s);
    SubStageIs(m, f, policy, now, choice, s);
    TheSubscription(m, f, Key(SUBSCRIPTIONS, s));
    var kept := Kept(m, INVOICES, SubscriptionRef, s, policy.invoiceDays, now);
    var expired := Expired(m, INVOICES, SubscriptionRef, s, policy.invoiceDays, now);
    var m2 := m - FamilyRows(m, f) - expired;
    assert k in expired <==> SubInvoice(m, f, k) && !Retained(policy.invoiceDays, now, m[k].stamp);
    if k in FamilyRows(m, f) || k in expired {
      RehomeGone(m2, kept, choice, TombSubId(m, choice), k);
    } else {
      RehomeOld(m2, kept, choice, TombSubId(m, choice), k);
    }
  }

  lemma SubStageOld(m: Db, f: Id, policy: Policy, now: Time, choice: Choice, k: Key)
    requires Schema(m) && f != TOMBSTONE_FAMILY && Allowed(m, choice) && k in m
    ensures var d := AfterSub(m, f, policy, now, choice);
            && (k in d <==> SubStageKeeps(m, f, policy, now, k))
            && (k in d ==> d[k] == if SubInvoice(m, f, k) then m[k].(refs := m[k].refs[SubscriptionRef := TombSubId(m, choice)])
                                   else m[k])
  {
    if k in FamilyRows(m, f) { FamilyRowsTables(m, f, k); }
    var subs := Sel(m, {SUBSCRIPTIONS}, FamilyRef, {f});
    if subs == {} {
      SubsAfterRows(m, f, f);
      NoKeptInvoices(m, f, policy, now);
    } else {
      SubStageOldFound(m, f, policy, now, choice, k, PickId(subs));
    }
  }

  lemma SubStageNewFound(m: Db, f: Id, policy: Policy, now: Time, choice: Choice, k: Key, s: Id)
    requires Schema(m) && f != TOMBSTONE_FAMILY && Allowed(m, choice) && k !in m
    requires Key(SUBSCRIPTIONS, s) in Sel(m, {SUBSCRIPTIONS}, FamilyRef, {f})
    ensures var d := AfterSub(m, f, policy, now, choice);
            && (k in d <==> KeepsInvoice(m, f, policy, now) && NewTombRow(m, f, policy, now, choice, k))
            && (k in d ==> d[k] == Outcome(m, f, policy, now, choice, k))
  {
    KeptInvoices(m, f, policy, now, s);
    SubStageIs(m, f, policy, now, choice, s);
    var kept := Kept(m, INVOICES, SubscriptionRef, s, policy.invoiceDays, now);
    var m2 := m - FamilyRows(m, f) - Expired(m, INVOICES, SubscriptionRef, s, policy.invoiceDays, now);
    RehomeNew(m2, kept, choice, TombSubId(m, choice), k);
  }

  lemma SubStageNew(m: Db, f: Id, policy: Policy, now: Time, choice: Choice, k: Key)
    requires Schema(m) && f != TOMBSTONE_FAMILY && Allowed(m, choice) && k !in m
    ensures var d := AfterSub(m, f, policy, now, choice);
            && (k in d <==> KeepsInvoice(m, f, policy, now) && NewTombRow(m, f, policy, now, choice, k))
            && (k in d ==> d[k] == Outcome(m, f, policy, now, choice, k))
  {
    var subs := Sel(m, {SUBSCRIPTIONS}, FamilyRef, {f});
    if subs == {} {
      SubsAfterRows(m, f, f);
      NoKeptInvoices(m, f, policy, now);
    } else {
      SubStageNewFound(m, f, policy, now, choice, k, PickId(subs));
    }
  }

  function SubStageRow(m: Db, f: Id, choice: Choice, to: Id, k: Key): Row
    requires k in m
  {
    if SubInvoice(m, f, k) then m[k].(refs := m[k].refs[SubscriptionRef := to]) else m[k]
  }

  /** `d` is what the subscription stage makes of `m`. */
  ghost predicate SubStaged(m: Db, f: Id, policy: Policy, now: Time, choice: Choice, d: Db) {
    && (forall k :: k in m ==> (k in d <==> SubStageKeeps(m, f, policy, now, k)))
    && (forall k :: k in m && k in d ==> d[k] == SubStageRow(m, f, choice, TombSubId(m, choice), k))
    && (forall k :: k !in m ==> (k in d <==> KeepsInvoice(m, f, policy, now) && NewTombRow(m, f, policy, now, choice, k)))
    && (forall k :: k !in m && k in d ==> d[k] == Outcome(m, f, policy, now, choice, k))
  }

  lemma SubStage(m: Db, f: Id, policy: Policy, now: Time, choice: Choice)
    requires Schema(m) && f != TOMBSTONE_FAMILY && Allowed(m, choice)
    ensures SubStaged(m, f, policy, now, choice, AfterSub(m, f, policy, now, choice))
  {
    forall k | k in m
      ensures var d := AfterSub(m, f, policy, now, choice);
              && (k in d <==> SubStageKeeps(m, f, policy, now, k))
              && (k in d ==> d[k] == SubStageRow(m, f, choice, TombSubId(m, choice), k))
    {
      SubStageOld(m, f, policy, now, choice, k);
    }
    forall k | k !in m
      ensures var d := AfterSub(m, f, policy, now, choice);
              && (k in d <==> KeepsInvoice(m, f, policy, now) && NewTombRow(m, f, policy, now, choice, k))
              && (k in d ==> d[k] == Outcome(m, f, policy, now, choice, k))
    {
      SubStageNew(m, f, policy, now, choice, k);
    }
  }

  predicate OwnConsent(m: Db, f: Id, k: Key)
    requires k in m
  {
    k.table == CONSENT_RECORDS && Points(m[k], FamilyRef, f) && k !in FamilyRows(m, f)
  }

  /** Whether a row that was there is left for the last two deletes. */
  ghost predicate Spared(m: Db, f: Id, policy: Policy, now: Time, k: Key)
    requires k in m
  {
    SubStageKeeps(m, f, policy, now, k) && (OwnConsent(m, f, k) ==> Retained(policy.consentDays, now, m[k].stamp))
  }

  /** A row's fate, said with the stages' own tests. */
  lemma FateByStage(m: Db, f: Id, policy: Policy, now: Time, k: Key)
    requires Shaped(m) && k in m
    ensures (FateOf(m, f, policy, now, k) == InvoiceKept <==> SubInvoice(m, f, k) && Retained(policy.invoiceDays, now, m[k].stamp))
    ensures (FateOf(m, f, policy, now, k) == ConsentKept <==> OwnConsent(m, f, k) && Retained(policy.consentDays, now, m[k].stamp))
    ensures (FateOf(m, f, policy, now, k) == Goes <==>
               || !Spared(m, f, policy, now, k)
               || (k.table == PARENTS && Points(m[k], FamilyRef, f))
               || (k.table in {OAUTH_ACCOUNTS, EMAIL_TOKENS} && PointsInto(m[k], ParentRef, ParentsOf(m, f)))
               || k == Key(FAMILIES, f))
  {
    if k in FamilyRows(m, f) { FamilyRowsTables(m, f, k); }
  }

  /** After the subscription stage the family's consents are those of no purged child. */
  lemma ConsentsAfterSub(m: Db, f: Id, policy: Policy, now: Time, choice: Choice, d: Db)
    requires Schema(m) && f != TOMBSTONE_FAMILY && SubStaged(m, f, policy, now, choice, d)
    ensures forall k :: k in Sel(d, {CONSENT_RECORDS}, FamilyRef, {f}) <==> k in m && OwnConsent(m, f, k)
    ensures forall k :: k in m && OwnConsent(m, f, k) ==> k in d && d[k] == m[k]
  {
  }

  lemma KeptConsents(m: Db, f: Id, policy: Policy, now: Time, choice: Choice, d: Db)
    requires Schema(m) && f != TOMBSTONE_FAMILY && SubStaged(m, f, policy, now, choice, d)
    ensures var kept := Kept(d, CONSENT_RECORDS, FamilyRef, f, policy.consentDays, now);
            KeepsConsent(m, f, policy, now) <==> kept != {}
  {
    var kept := Kept(d, CONSENT_RECORDS, FamilyRef, f, policy.consentDays, now);
    ConsentsAfterSub(m, f, policy, now, choice, d);
    forall k | k in m ensures k in kept <==> FateOf(m, f, policy, now, k) == ConsentKept {
      FateByStage(m, f, policy, now, k);
    }
    if kept != {} {
      var k :| k in kept;
      assert k in m;
    }
  }

  function SparedRow(m: Db, f: Id, choice: Choice, to: Id, k: Key): Row
    requires k in m
  {
    if OwnConsent(m, f, k) then Detach(m[k]) else SubStageRow(m, f, choice, to, k)
  }

  /** `e` is what the subscription and consent stages make of `m`. */
  ghost predicate ConsentStaged(m: Db, f: Id, policy: Policy, now: Time, choice: Choice, e: Db) {
    && (forall k :: k in m ==> (k in e <==> Spared(m, f, policy, now, k)))
    && (forall k :: k in m && k in e ==> e[k] == SparedRow(m, f, choice, TombSubId(m, choice), k))
    && (forall k :: k !in m ==> (k in e <==> NewTombRow(m, f, policy, now, choice, k)))
    && (forall k :: k !in m && k in e ==> e[k] == Outcome(m, f, policy, now, choice, k))
  }

  /** `e` is `d` with the family's consents settled. */
  ghost predicate Settled(d: Db, f: Id, days: nat, now: Time, e: Db) {
    var mine := Sel(d, {CONSENT_RECORDS}, FamilyRef, {f});
    && (forall k :: k in d ==> (k in e <==> (k in mine ==> Retained(days, now, d[k].stamp))))
    && (forall k :: k in d && k in e ==> e[k] == if k in mine then Detach(d[k]) else d[k])
    && (forall k :: k !in d ==> (k in e <==> (&& k == Key(FAMILIES, TOMBSTONE_FAMILY)
                                          && Kept(d, CONSENT_RECORDS, FamilyRef, f, days, now) != {})))
    && (forall k :: k !in d && k in e ==> e[k] == Row(map[], 0, None))
  }

  lemma ConsentSettles(d: Db, f: Id, days: nat, now: Time)
    ensures Settled(d, f, days, now, ConsentSettled(d, f, days, now))
  {
    var m1 := d - Expired(d, CONSENT_RECORDS, FamilyRef, f, days, now);
    var kept := Kept(d, CONSENT_RECORDS, FamilyRef, f, days, now);
    var mine := Sel(d, {CONSENT_RECORDS}, FamilyRef, {f});
    assert forall k :: k in mine ==> (k in kept <==> Retained(days, now, d[k].stamp));
    assert forall k :: k in d ==> (k in m1 <==> (k in mine ==> Retained(days, now, d[k].stamp)));
  }

  lemma ConsentStageOld(m: Db, f: Id, policy: Policy, now: Time, choice: Choice, d: Db, e: Db, k: Key)
    requires Schema(m) && f != TOMBSTONE_FAMILY && SubStaged(m, f, policy, now, choice, d)
    requires Settled(d, f, policy.consentDays, now, e) && k in m
    ensures k in e <==> Spared(m, f, policy, now, k)
    ensures k in e ==> e[k] == SparedRow(m, f, choice, TombSubId(m, choice), k)
  {
    ConsentsAfterSub(m, f, policy, now, choice, d);
    if k !in d {
      assert k.table != FAMILIES by {
        if k in FamilyRows(m, f) { FamilyRowsTables(m, f, k); }
      }
    }
  }

  lemma ConsentStageNew(m: Db, f: Id, policy: Policy, now: Time, choice: Choice, d: Db, e: Db, k: Key)
    requires Schema(m) && f != TOMBSTONE_FAMILY && SubStaged(m, f, policy, now, choice, d)
    requires Settled(d, f, policy.consentDays, now, e) && k !in m
    ensures k in e <==> NewTombRow(m, f, policy, now, choice, k)
    ensures k in e ==> e[k] == Outcome(m, f, policy, now, choice, k)
  {
    ConsentsAfterSub(m, f, policy, now, choice, d);
    KeptConsents(m, f, policy, now, choice, d);
  }

  lemma ConsentStage(m: Db, f: Id, policy: Policy, now: Time, choice: Choice, d: Db, e: Db)
    requires Schema(m) && f != TOMBSTONE_FAMILY && SubStaged(m, f, policy, now, choice, d)
    requires Settled(d, f, policy.consentDays, now, e)
    ensures ConsentStaged(m, f, policy, now, choice, e)
  {
    forall k | k in m
      ensures k in e <==> Spared(m, f, policy, now, k)
      ensures k in e ==> e[k] == SparedRow(m, f, choice, TombSubId(m, choice), k)
    {
      ConsentStageOld(m, f, policy, now, choice, d, e, k);
    }
    forall k | k !in m
      ensures k in e <==> NewTombRow(m, f, policy, now, choice, k)
      ensures k in e ==> e[k] == Outcome(m, f, policy, now, choice, k)
    {
      ConsentStageNew(m, f, policy, now, choice, d, e, k);
    }
  }

  /** What is under the family's parents before they go. */
  lemma ParentsAfterConsent(m: Db, f: Id, policy: Policy, now: Time, choice: Choice, e: Db)
    requires Schema(m) && f != TOMBSTONE_FAMILY && ConsentStaged(m, f, policy, now, choice, e)
    ensures Sel(e, {PARENTS}, FamilyRef, {f}) == Sel(m, {PARENTS}, FamilyRef, {f})
  {
    forall k | k in m && k.table == PARENTS
      ensures k in e && e[k] == m[k]
    {
      if k in FamilyRows(m, f) { FamilyRowsTables(m, f, k); }
    }
  }

  lemma CascadeOfParents(m: Db, f: Id, policy: Policy, now: Time, choice: Choice, e: Db)
    requires Schema(m) && f != TOMBSTONE_FAMILY && ConsentStaged(m, f, policy, now, choice, e)
    ensures forall k :: k in Cascaded(e, Sel(m, {PARENTS}, FamilyRef, {f})) <==>
              k in m && k.table in {OAUTH_ACCOUNTS, EMAIL_TOKENS} && PointsInto(m[k], ParentRef, ParentsOf(m, f))
  {
    var ps := Sel(m, {PARENTS}, FamilyRef, {f});
    forall k
      ensures k in Cascaded(e, ps) <==>
              k in m && k.table in {OAUTH_ACCOUNTS, EMAIL_TOKENS} && PointsInto(m[k], ParentRef, ParentsOf(m, f))
    {
      forall id ensures Key(PARENTS, id) in ps <==> id in ParentsOf(m, f) {}
      if k in m && k.table in {OAUTH_ACCOUNTS, EMAIL_TOKENS} {
        if k in FamilyRows(m, f) { FamilyRowsTables(m, f, k); }
        assert k in e && e[k] == m[k];
        assert k in Cascaded(e, ps) <==> ParentRef in m[k].refs && CascadesFrom(e, k, ParentRef, ps);
      }
    }
  }

  /** `z` is `e` after the last two deletes. */
  ghost predicate Emptied(e: Db, f: Id, z: Db) {
    var ps := Sel(e, {PARENTS}, FamilyRef, {f});
    && (forall k :: k in z <==> k in e && k !in ps && k !in Cascaded(e, ps) && k != Key(FAMILIES, f))
    && (forall k :: k in z ==> z[k] == e[k])
  }

  lemma LastStageOld(m: Db, f: Id, policy: Policy, now: Time, choice: Choice, e: Db, z: Db, k: Key)
    requires Schema(m) && f != TOMBSTONE_FAMILY && ConsentStaged(m, f, policy, now, choice, e)
    requires Emptied(e, f, z) && k in m
    ensures Fated(m, f, policy, now, choice, z, k)
  {
    ParentsAfterConsent(m, f, policy, now, choice, e);
    CascadeOfParents(m, f, policy, now, choice, e);
    FateByStage(m, f, policy, now, k);
  }

  lemma LastStageNew(m: Db, f: Id, policy: Policy, now: Time, choice: Choice, e: Db, z: Db, k: Key)
    requires Schema(m) && f != TOMBSTONE_FAMILY && ConsentStaged(m, f, policy, now, choice, e)
    requires Emptied(e, f, z) && k !in m
    ensures Fated(m, f, policy, now, choice, z, k)
  {
    ParentsAfterConsent(m, f, policy, now, choice, e);
    CascadeOfParents(m, f, policy, now, choice, e);
  }

  /** The stages together give every row its fate. */
  lemma StagesGiveFates(m: Db, f: Id, policy: Policy, now: Time, choice: Choice, e: Db, z: Db)
    requires Schema(m) && f != TOMBSTONE_FAMILY && ConsentStaged(m, f, policy, now, choice, e)
    requires Emptied(e, f, z)
    ensures IsPurged(m, f, policy, now, choice, z)
  {
    forall k ensures Fated(m, f, policy, now, choice, z, k) {
      if k in m {
        LastStageOld(m, f, policy, now, choice, e, z, k);
      } else {
        LastStageNew(m, f, policy, now, choice, e, z, k);
      }
    }
  }

  // ---- what can stop the purge ----

  lemma IntentRows(m: Db, f: Id, k: Key)
    requires Shaped(m) && k in m && k.table == PAYMENT_INTENTS
    ensures k in FamilyRows(m, f) <==> Points(m[k], FamilyRef, f)
  {
    assert ChildRef !in m[k].refs by { assert !HasColumn(PAYMENT_INTENTS, ChildRef); }
  }

  /** A pinned intent passes the family stages untouched. */
  lemma PinnedIntent(m: Db, f: Id, policy: Policy, now: Time, choice: Choice, k: Key)
    requires Shaped(m) && k in m && k.table == PAYMENT_INTENTS && Pin(m, f, k)
    ensures PointsInto(m[k], SubscriptionRef, SubsOf(m, f))
    ensures SubStageKeeps(m, f, policy, now, k) && SubStageRow(m, f, choice, TombSubId(m, choice), k) == m[k]
  {
    IntentRows(m, f, k);
    assert ParentRef in m[k].refs ==> HasColumn(PAYMENT_INTENTS, ParentRef);
  }

  lemma PinnedIntentStays(m: Db, f: Id, policy: Policy, now: Time, choice: Choice, d: Db, k: Key)
    requires Shaped(m) && k in m && k.table == PAYMENT_INTENTS && Pin(m, f, k)
    requires SubStaged(m, f, policy, now, choice, d)
    ensures k in d && d[k] == m[k] && PointsInto(d[k], SubscriptionRef, SubsOf(m, f))
  {
    PinnedIntent(m, f, policy, now, choice, k);
  }

  lemma IntentHolds(m: Db, k: Key, s: Id)
    requires k in m && k.table == PAYMENT_INTENTS && Points(m[k], SubscriptionRef, s)
    ensures Blocked(m, {Key(SUBSCRIPTIONS, s)})
  {
    assert Holds(m, k, SubscriptionRef, {Key(SUBSCRIPTIONS, s)});
  }

  lemma PinHolds(m: Db, f: Id, policy: Policy, now: Time, choice: Choice, s: Id, d: Db, d1: Db)
    requires Shaped(m) && OneSubscription(m) && PinnedBySub(m, f)
    requires Key(SUBSCRIPTIONS, s) in Sel(m, {SUBSCRIPTIONS}, FamilyRef, {f})
    requires SubStaged(m, f, policy, now, choice, d) && d1 - {Key(SUBSCRIPTIONS, s)} == d
    ensures Blocked(d1, {Key(SUBSCRIPTIONS, s)})
  {
    var k :| k in m && k.table == PAYMENT_INTENTS && Pin(m, f, k);
    PinnedIntentStays(m, f, policy, now, choice, d, k);
    TheSubscription(m, f, Key(SUBSCRIPTIONS, s));
    IntentHolds(d1, k, s);
  }

  lemma ColumnsIntoSubscriptions(t: Table)
    requires HasColumn(t, SubscriptionRef)
    ensures t == INVOICES || t == PAYMENT_INTENTS
  {
  }

  lemma IntentRowsIfIntent(m: Db, f: Id, k: Key)
    requires Shaped(m) && k in m
    ensures k.table == PAYMENT_INTENTS ==> (k in FamilyRows(m, f) <==> Points(m[k], FamilyRef, f))
  {
    if k.table == PAYMENT_INTENTS { IntentRows(m, f, k); }
  }

  lemma TombSubIsAnother(m: Db, f: Id, choice: Choice, s: Id)
    requires f != TOMBSTONE_FAMILY && Allowed(m, choice)
    requires Key(SUBSCRIPTIONS, s) in Sel(m, {SUBSCRIPTIONS}, FamilyRef, {f})
    ensures TombSubId(m, choice) != s
  {
  }

  lemma HolderOfSubscription(m: Db, f: Id, policy: Policy, now: Time, choice: Choice, s: Id, k: Key)
    requires Schema(m) && f != TOMBSTONE_FAMILY && Allowed(m, choice) && k in m
    requires Key(SUBSCRIPTIONS, s) in Sel(m, {SUBSCRIPTIONS}, FamilyRef, {f})
    requires SubStageKeeps(m, f, policy, now, k)
    requires Points(SubStageRow(m, f, choice, TombSubId(m, choice), k), SubscriptionRef, s)
    ensures k.table == PAYMENT_INTENTS && Pin(m, f, k)
  {
    TheSubscription(m, f, Key(SUBSCRIPTIONS, s));
    TombSubIsAnother(m, f, choice, s);
    assert SubscriptionRef in m[k].refs && HasColumn(k.table, SubscriptionRef);
    ColumnsIntoSubscriptions(k.table);
    IntentRowsIfIntent(m, f, k);
  }

  lemma SubscriptionHolder(m: Db, f: Id, policy: Policy, now: Time, choice: Choice, s: Id, d: Db, k: Key)
    requires Schema(m) && f != TOMBSTONE_FAMILY && Allowed(m, choice)
    requires Key(SUBSCRIPTIONS, s) in Sel(m, {SUBSCRIPTIONS}, FamilyRef, {f})
    requires SubStaged(m, f, policy, now, choice, d) && k in d && Points(d[k], SubscriptionRef, s)
    ensures k in m && k.table == PAYMENT_INTENTS && Pin(m, f, k)
  {
    assert k in m;
    assert SubStageKeeps(m, f, policy, now, k) && d[k] == SubStageRow(m, f, choice, TombSubId(m, choice), k);
    HolderOfSubscription(m, f, policy, now, choice, s, k);
  }

  /** Only a foreign payment intent can hold the family's subscription. */
  lemma SubscriptionHolds(m: Db, f: Id, policy: Policy, now: Time, choice: Choice, s: Id, d: Db, d1: Db)
    requires Schema(m) && f != TOMBSTONE_FAMILY && Allowed(m, choice)
    requires Key(SUBSCRIPTIONS, s) in Sel(m, {SUBSCRIPTIONS}, FamilyRef, {f})
    requires SubStaged(m, f, policy, now, choice, d) && d1 - {Key(SUBSCRIPTIONS, s)} == d
    ensures Blocked(d1, {Key(SUBSCRIPTIONS, s)}) <==> PinnedBySub(m, f)
    ensures Cascaded(d1, {Key(SUBSCRIPTIONS, s)}) == {}
  {
    var gone := {Key(SUBSCRIPTIONS, s)};
    forall k, h | k in d1 && h in d1[k].refs && k !in gone && Key(Target(h), d1[k].refs[h]) in gone
      ensures h == SubscriptionRef && k in m && k.table == PAYMENT_INTENTS && Pin(m, f, k)
    {
      assert d1[k] == d[k] && k in d;
      SubscriptionHolder(m, f, policy, now, choice, s, d, k);
    }
    if PinnedBySub(m, f) {
      PinHolds(m, f, policy, now, choice, s, d, d1);
    }
  }

  /** Which rows on a parent the family stages take. */
  lemma HolderRows(m: Db, f: Id, k: Key)
    requires Shaped(m) && k in m && k.table in {CONSENT_RECORDS, DATA_EXPORTS, AUTH_SESSIONS, INVITATIONS}
    ensures k in FamilyRows(m, f)
       <==> OfChildren(m, k, ChildrenOf(m, f)) || (k.table != CONSENT_RECORDS && Points(m[k], FamilyRef, f))
  {
  }

  lemma HolderTables(t: Table)
    requires HasColumn(t, ParentRef) && ActionOf(t, ParentRef) == Restrict
    ensures t in {CONSENT_RECORDS, DATA_EXPORTS, AUTH_SESSIONS, INVITATIONS}
  {
  }

  lemma HolderRow(m: Db, f: Id, policy: Policy, now: Time, choice: Choice, k: Key)
    requires Shaped(m) && k in m && Spared(m, f, policy, now, k)
    requires PointsInto(SparedRow(m, f, choice, TombSubId(m, choice), k), ParentRef, ParentsOf(m, f))
    requires ActionOf(k.table, ParentRef) == Restrict
    ensures k.table != PAYMENT_INTENTS && Pin(m, f, k)
  {
    assert !OwnConsent(m, f, k);
    assert PointsInto(m[k], ParentRef, ParentsOf(m, f));
    HolderTables(k.table);
    HolderRows(m, f, k);
  }

  lemma ParentHolder(m: Db, f: Id, policy: Policy, now: Time, choice: Choice, e: Db, k: Key)
    requires Schema(m) && f != TOMBSTONE_FAMILY && ConsentStaged(m, f, policy, now, choice, e)
    requires k in e && PointsInto(e[k], ParentRef, ParentsOf(m, f)) && ActionOf(k.table, ParentRef) == Restrict
    ensures k in m && k.table != PAYMENT_INTENTS && Pin(m, f, k)
  {
    assert k in m;
    assert Spared(m, f, policy, now, k) && e[k] == SparedRow(m, f, choice, TombSubId(m, choice), k);
    HolderRow(m, f, policy, now, choice, k);
  }

  lemma PinnedRowStays(m: Db, f: Id, policy: Policy, now: Time, choice: Choice, e: Db, k: Key)
    requires Schema(m) && ConsentStaged(m, f, policy, now, choice, e)
    requires k in m && k.table != PAYMENT_INTENTS && Pin(m, f, k)
    ensures k in e && e[k] == m[k] && PointsInto(m[k], ParentRef, ParentsOf(m, f))
  {
    HolderTables(k.table);
    HolderRows(m, f, k);
    assert Spared(m, f, policy, now, k);
  }

  /** Only a foreign row on one of its parents can hold the family's parents. */
  lemma ParentsHold(m: Db, f: Id, policy: Policy, now: Time, choice: Choice, e: Db)
    requires Schema(m) && f != TOMBSTONE_FAMILY && ConsentStaged(m, f, policy, now, choice, e)
    ensures Blocked(e, Sel(m, {PARENTS}, FamilyRef, {f})) <==> PinnedByParent(m, f)
  {
    var gone := Sel(m, {PARENTS}, FamilyRef, {f});
    forall id ensures Key(PARENTS, id) in gone <==> id in ParentsOf(m, f) {}
    forall k, h | k in e && h in e[k].refs && Holds(e, k, h, gone)
      ensures k in m && k.table != PAYMENT_INTENTS && Pin(m, f, k)
    {
      ParentHolder(m, f, policy, now, choice, e, k);
    }
    forall k | k in m && k.table != PAYMENT_INTENTS && Pin(m, f, k)
      ensures Holds(e, k, ParentRef, gone)
    {
      PinnedRowStays(m, f, policy, now, choice, e, k);
    }
  }

  /** The family column's tables. */
  lemma FamilyTables(t: Table)
    requires HasColumn(t, FamilyRef) && ActionOf(t, FamilyRef) == Restrict
    ensures t in FAMILY_LEAVES + ACCOUNT_LEAVES + {CHILDREN, CONVERSATIONS, SUBJECT_PROGRESS, SUBSCRIPTIONS, PARENTS, CONSENT_RECORDS}
  {
  }

  lemma NoFamilyRowLeft(m: Db, f: Id, policy: Policy, now: Time, choice: Choice, k: Key)
    requires Shaped(m) && f != TOMBSTONE_FAMILY && k in m && Spared(m, f, policy, now, k)
    requires Points(SparedRow(m, f, choice, TombSubId(m, choice), k), FamilyRef, f)
    requires ActionOf(k.table, FamilyRef) == Restrict
    ensures k in Sel(m, {PARENTS}, FamilyRef, {f})
  {
    assert !OwnConsent(m, f, k);
    assert Points(m[k], FamilyRef, f);
    FamilyTables(k.table);
  }

  lemma FamilyPointerIsFree(m: Db, f: Id, policy: Policy, now: Time, choice: Choice, e: Db, k: Key)
    requires Schema(m) && f != TOMBSTONE_FAMILY && ConsentStaged(m, f, policy, now, choice, e)
    requires k in e && Points(e[k], FamilyRef, f) && k !in Sel(m, {PARENTS}, FamilyRef, {f})
    ensures ActionOf(k.table, FamilyRef) == NoForeignKey
  {
    if k in m && ActionOf(k.table, FamilyRef) == Restrict {
      NoFamilyRowLeft(m, f, policy, now, choice, k);
    }
  }

  /** Nothing holds the family row once the rest is done. */
  lemma FamilyRowIsFree(m: Db, f: Id, policy: Policy, now: Time, choice: Choice, e: Db, z: Db)
    requires Schema(m) && f != TOMBSTONE_FAMILY && ConsentStaged(m, f, policy, now, choice, e)
    requires z == AfterParents(e, f)
    ensures !Blocked(z, {Key(FAMILIES, f)}) && Cascaded(z, {Key(FAMILIES, f)}) == {}
  {
    ParentsAfterConsent(m, f, policy, now, choice, e);
    forall k, h | k in z && h in z[k].refs && Key(Target(h), z[k].refs[h]) == Key(FAMILIES, f)
      ensures ActionOf(k.table, h) == NoForeignKey
    {
      assert h == FamilyRef && z[k] == e[k];
      FamilyPointerIsFree(m, f, policy, now, choice, e, k);
    }
  }

  lemma NoSubscriptionNoPin(m: Db, f: Id)
    requires Shaped(m) && Sel(m, {SUBSCRIPTIONS}, FamilyRef, {f}) == {}
    ensures !PinnedBySub(m, f)
  {
    assert SubsOf(m, f) == {};
    forall k | k in m && k.table == PAYMENT_INTENTS ensures !Pin(m, f, k) {
      assert ParentRef in m[k].refs ==> HasColumn(PAYMENT_INTENTS, ParentRef);
    }
  }

  /** A tombstone subscription is only ever needed when the family has a subscription, whose plan
      the new one can take. */
  lemma PlanForTombstone(m: Db, choice: Choice, k: Key)
    requires Shaped(m) && ForeignKeysHold(m) && Allowed(m, choice) && k in m && k.table == SUBSCRIPTIONS
    ensures choice.planId.Some?
  {
    assert PlanRef in m[k].refs && ActionOf(k.table, PlanRef) != NoForeignKey;
    assert Key(PLANS, m[k].refs[PlanRef]) in m;
  }

  /** What the purge finds when it comes to the subscription. */
  lemma SubscriptionFound(m: Db, f: Id, policy: Policy, now: Time, choice: Choice, m1: Db, subs: set<Key>)
    requires Schema(m) && Allowed(m, choice)
    requires m1 == m - FamilyRows(m, f) && subs == Sel(m1, {SUBSCRIPTIONS}, FamilyRef, {f})
    ensures OneSubscription(m1)
    ensures subs == {} ==> m1 == AfterSub(m, f, policy, now, choice) && !PinnedBySub(m, f)
    ensures subs != {} ==> choice.planId.Some?
    ensures forall k :: k in subs ==> k in Sel(m, {SUBSCRIPTIONS}, FamilyRef, {f})
  {
    SubsAfterRows(m, f, f);
    if subs != {} {
      var k :| k in subs;
      PlanForTombstone(m, choice, k);
    } else {
      NoSubscriptionNoPin(m, f);
    }
  }

  /** What the subscription's deletion meets and leaves. */
  lemma SubscriptionLast(m: Db, f: Id, policy: Policy, now: Time, choice: Choice, k: Key, d1: Db)
    requires Schema(m) && f != TOMBSTONE_FAMILY && Allowed(m, choice)
    requires k in Sel(m, {SUBSCRIPTIONS}, FamilyRef, {f})
    requires d1 == InvoicesSettled(m - FamilyRows(m, f), k.id, policy.invoiceDays, now, choice)
    ensures Blocked(d1, {k}) <==> PinnedBySub(m, f)
    ensures d1 - ({k} + Cascaded(d1, {k})) == AfterSub(m, f, policy, now, choice)
  {
    SubsAfterRows(m, f, f);
    TheSubscription(m, f, k);
    SubStage(m, f, policy, now, choice);
    SubscriptionHolds(m, f, policy, now, choice, k.id, AfterSub(m, f, policy, now, choice), d1);
    assert {k} + Cascaded(d1, {k}) == {k};
  }

  lemma LastTwo(m: Db, f: Id, policy: Policy, now: Time, choice: Choice, e: Db, z: Db)
    requires Schema(m) && f != TOMBSTONE_FAMILY && ConsentStaged(m, f, policy, now, choice, e)
    requires z == AfterParents(e, f)
    ensures Blocked(e, Sel(e, {PARENTS}, FamilyRef, {f})) <==> PinnedByParent(m, f)
    ensures !Blocked(z, {Key(FAMILIES, f)})
    ensures IsPurged(m, f, policy, now, choice, z - ({Key(FAMILIES, f)} + Cascaded(z, {Key(FAMILIES, f)})))
  {
    ParentsAfterConsent(m, f, policy, now, choice, e);
    ParentsHold(m, f, policy, now, choice, e);
    FamilyRowIsFree(m, f, policy, now, choice, e, z);
    assert {Key(FAMILIES, f)} + Cascaded(z, {Key(FAMILIES, f)}) == {Key(FAMILIES, f)};
    StagesGiveFates(m, f, policy, now, choice, e, z - {Key(FAMILIES, f)});
  }

  /** What the last two deletes meet and leave. */
  lemma LastStages(m: Db, f: Id, policy: Policy, now: Time, choice: Choice, e: Db, z: Db)
    requires Schema(m) && f != TOMBSTONE_FAMILY && Allowed(m, choice)
    requires e == ConsentSettled(AfterSub(m, f, policy, now, choice), f, policy.consentDays, now)
    requires z == AfterParents(e, f)
    ensures Blocked(e, Sel(e, {PARENTS}, FamilyRef, {f})) <==> PinnedByParent(m, f)
    ensures !Blocked(z, {Key(FAMILIES, f)})
    ensures IsPurged(m, f, policy, now, choice, z - ({Key(FAMILIES, f)} + Cascaded(z, {Key(FAMILIES, f)})))
  {
    var d := AfterSub(m, f, policy, now, choice);
    SubStage(m, f, policy, now, choice);
    ConsentSettles(d, f, policy.consentDays, now);
    ConsentStage(m, f, policy, now, choice, d, e);
    LastTwo(m, f, policy, now, choice, e, z);
  }

  // ---- databases that do stop it ----

  /** A payment intent of one family on another's subscription. */
  function ForeignIntent(f: Id, g: Id, plan: Id, sub: Id, intent: Id): Db {
    map[Key(FAMILIES, f) := Row(map[], 0, None),
        Key(FAMILIES, g) := Row(map[], 0, None),
        Key(PLANS, plan) := Row(map[], 0, None),
        Key(SUBSCRIPTIONS, sub) := Row(map[FamilyRef := f, PlanRef := plan], 0, None),
        Key(PAYMENT_INTENTS, intent) := Row(map[FamilyRef := g, SubscriptionRef := sub], 0, None)]
  }

  /** The schema allows it, and it stops the purge of the subscription's family. */
  lemma ForeignIntentPins(f: Id, g: Id, plan: Id, sub: Id, intent: Id)
    requires f != g
    ensures var m := ForeignIntent(f, g, plan, sub, intent); Schema(m) && PinnedBySub(m, f)
  {
    var m := ForeignIntent(f, g, plan, sub, intent);
    var k, s := Key(PAYMENT_INTENTS, intent), Key(SUBSCRIPTIONS, sub);
    assert k in m && s in m && m[k].refs == map[FamilyRef := g, SubscriptionRef := sub];
    assert s in Sel(m, {SUBSCRIPTIONS}, FamilyRef, {f});
    assert Pin(m, f, k);
  }

  /** An export one family keeps for a parent of another. */
  function ForeignExport(f: Id, g: Id, parent: Id, dataExport: Id): Db {
    map[Key(FAMILIES, f) := Row(map[], 0, None),
        Key(FAMILIES, g) := Row(map[], 0, None),
        Key(PARENTS, parent) := Row(map[FamilyRef := f], 0, None),
        Key(DATA_EXPORTS, dataExport) := Row(map[FamilyRef := g, ParentRef := parent], 0, None)]
  }

  lemma ForeignExportPins(f: Id, g: Id, parent: Id, dataExport: Id)
    requires f != g
    ensures var m := ForeignExport(f, g, parent, dataExport); Schema(m) && PinnedByParent(m, f) && !PinnedBySub(m, f)
  {
    var m := ForeignExport(f, g, parent, dataExport);
    var k, p := Key(DATA_EXPORTS, dataExport), Key(PARENTS, parent);
    assert k in m && p in m && m[k].refs == map[FamilyRef := g, ParentRef := parent];
    assert p in Sel(m, {PARENTS}, FamilyRef, {f});
    assert Pin(m, f, k);
  }
}
