/** What a family purge means for the families: on a database whose rows keep to their family,
    nothing stops it, it takes that family's rows and no others, and it keeps what the law asks
    to keep (src/modules/settings/settings.service.ts, src/modules/children/children.service.ts). */
module FamilyIsolation {
  import opened Common
  import opened RetentionPurge

  /** The column through which a table without a family column belongs to a family. */
  function OwnerColumn(t: Table): Option<Field> {
    if t == TOPIC_PROGRESS then Some(SubjectRef)
    else if t == MESSAGES then Some(ConversationRef)
    else if t == INVOICES then Some(SubscriptionRef)
    else if t == OAUTH_ACCOUNTS || t == EMAIL_TOKENS then Some(ParentRef)
    else None
  }

  /** The family column of the row a reference points at. */
  function FamilyBehind(m: Db, r: Row, f: Field): Option<Id> {
    if f in r.refs && Key(Target(f), r.refs[f]) in m && FamilyRef in m[Key(Target(f), r.refs[f])].refs
    then Some(m[Key(Target(f), r.refs[f])].refs[FamilyRef]) else None
  }

  /** The family a row belongs to. */
  function FamilyOf(m: Db, k: Key): Option<Id>
    requires k in m
  {
    if k.table == FAMILIES then Some(k.id)
    else if FamilyRef in m[k].refs then Some(m[k].refs[FamilyRef])
    else if OwnerColumn(k.table).Some? then FamilyBehind(m, m[k], OwnerColumn(k.table).value)
    else None
  }

  /** The columns the schema declares not null, as far as ownership needs them. */
  predicate NotNull(t: Table, f: Field) {
    || (f == FamilyRef && t in WITH_FAMILY)
    || (f == ChildRef && t == STRUGGLE_TRACKERS)
    || OwnerColumn(t) == Some(f)
  }

  ghost predicate Filled(m: Db) {
    forall k, f {:trigger NotNull(k.table, f)} :: k in m && NotNull(k.table, f) ==> f in m[k].refs
  }

  /** A row's child, parent or subscription belongs to the row's own family. */
  ghost predicate KeepsToFamily(m: Db, k: Key, f: Field)
    requires k in m
  {
    (f in m[k].refs && FamilyRef in m[k].refs && Key(Target(f), m[k].refs[f]) in m) ==>
      FamilyBehind(m, m[k], f) == Some(m[k].refs[FamilyRef])
  }

  ghost predicate Coherent(m: Db) {
    && Filled(m)
    && forall k, f {:trigger KeepsToFamily(m, k, f)} ::
         k in m && f in m[k].refs && f in {ChildRef, ParentRef, SubscriptionRef} ==> KeepsToFamily(m, k, f)
  }

  // ---- nothing stops the purge ----

  /** A family-coherent database has no row that could stop a family purge. */
  lemma CoherentHasNoPins(m: Db, f: Id)
    requires Schema(m) && Coherent(m)
    ensures !PinnedBySub(m, f) && !PinnedByParent(m, f)
  {
    forall k | k in m ensures !Pin(m, f, k) {
      if k.table == PAYMENT_INTENTS && PointsInto(m[k], SubscriptionRef, SubsOf(m, f)) {
        assert NotNull(PAYMENT_INTENTS, FamilyRef) && FamilyRef in m[k].refs;
        assert KeepsToFamily(m, k, SubscriptionRef);
      }
      if PointsInto(m[k], ParentRef, ParentsOf(m, f)) && ActionOf(k.table, ParentRef) == Restrict {
        assert HasColumn(k.table, ParentRef);
        HolderTables(k.table);
        assert NotNull(k.table, FamilyRef) && FamilyRef in m[k].refs;
        assert KeepsToFamily(m, k, ParentRef);
      }
    }
  }

  // ---- the purge takes exactly the family's rows ----

  lemma ChildrenKeepToFamily(m: Db, f: Id, k: Key)
    requires Schema(m) && Coherent(m) && k in m
    requires PointsInto(m[k], ChildRef, ChildrenOf(m, f))
    ensures Points(m[k], FamilyRef, f)
  {
    assert HasColumn(k.table, ChildRef);
    assert NotNull(k.table, FamilyRef) && FamilyRef in m[k].refs;
    assert KeepsToFamily(m, k, ChildRef);
  }

  lemma OwnedTables(t: Table)
    requires OwnerColumn(t).Some?
    ensures t !in WITH_FAMILY && t !in WITH_CHILD && t != FAMILIES
  {
  }

  /** A row without a family column belongs to the family of its owner. */
  lemma OwnedBehind(m: Db, f: Id, k: Key, h: Field)
    requires Shaped(m) && k in m && OwnerColumn(k.table) == Some(h) && h in m[k].refs
    requires Key(Target(h), m[k].refs[h]) in m && Points(m[Key(Target(h), m[k].refs[h])], FamilyRef, f)
    ensures FamilyOf(m, k) == Some(f)
  {
    OwnedTables(k.table);
    assert FamilyRef in m[k].refs ==> HasColumn(k.table, FamilyRef);
  }

  lemma BelowChildren(m: Db, f: Id, k: Key, t: Table, h: Field)
    requires Schema(m) && Coherent(m) && k in m && OwnerColumn(k.table) == Some(h) && Target(h) == t
    requires Under(m, k, t, h, ChildRef, ChildrenOf(m, f))
    ensures FamilyOf(m, k) == Some(f)
  {
    ChildrenKeepToFamily(m, f, Key(t, m[k].refs[h]));
    OwnedBehind(m, f, k, h);
  }

  lemma BelowFamily(m: Db, f: Id, k: Key, t: Table, h: Field)
    requires Shaped(m) && k in m && OwnerColumn(k.table) == Some(h) && Target(h) == t
    requires Under(m, k, t, h, FamilyRef, {f})
    ensures FamilyOf(m, k) == Some(f)
  {
    OwnedBehind(m, f, k, h);
  }

  lemma PointingRows(m: Db, f: Id, k: Key)
    requires Shaped(m) && k in m && Points(m[k], FamilyRef, f)
    ensures FamilyOf(m, k) == Some(f)
  {
    assert HasColumn(k.table, FamilyRef);
  }

  /** What goes with the family's children belongs to the family. */
  lemma ChildRowsAreOwn(m: Db, f: Id, k: Key)
    requires Schema(m) && Coherent(m) && k in m && OfChildren(m, k, ChildrenOf(m, f))
    ensures FamilyOf(m, k) == Some(f)
  {
    var cs := ChildrenOf(m, f);
    if k.table == TOPIC_PROGRESS && Under(m, k, SUBJECT_PROGRESS, SubjectRef, ChildRef, cs) {
      BelowChildren(m, f, k, SUBJECT_PROGRESS, SubjectRef);
    } else if k.table == MESSAGES && Under(m, k, CONVERSATIONS, ConversationRef, ChildRef, cs) {
      BelowChildren(m, f, k, CONVERSATIONS, ConversationRef);
    } else {
      ChildrenKeepToFamily(m, f, k);
      PointingRows(m, f, k);
    }
  }

  lemma LooseRowsAreOwn(m: Db, f: Id, k: Key)
    requires Shaped(m) && k in m && OfFamilyRows(m, k, f) && !OfChildren(m, k, ChildrenOf(m, f))
    ensures FamilyOf(m, k) == Some(f)
  {
    if k.table == TOPIC_PROGRESS {
      BelowFamily(m, f, k, SUBJECT_PROGRESS, SubjectRef);
    } else if k.table == MESSAGES {
      BelowFamily(m, f, k, CONVERSATIONS, ConversationRef);
    } else {
      PointingRows(m, f, k);
    }
  }

  lemma FamilyRowsAreOwn(m: Db, f: Id, k: Key)
    requires Schema(m) && Coherent(m) && k in m && OfFamilyRows(m, k, f)
    ensures FamilyOf(m, k) == Some(f)
  {
    if OfChildren(m, k, ChildrenOf(m, f)) {
      ChildRowsAreOwn(m, f, k);
    } else {
      LooseRowsAreOwn(m, f, k);
    }
  }

  lemma BehindIsOwn(m: Db, f: Id, k: Key, h: Field, t: Table)
    requires Shaped(m) && k in m && OwnerColumn(k.table) == Some(h) && Target(h) == t
    requires PointsInto(m[k], h, IdsOf(Sel(m, {t}, FamilyRef, {f})))
    ensures FamilyOf(m, k) == Some(f)
  {
    OwnedBehind(m, f, k, h);
  }

  /** Rows with a fate belong to the family. */
  lemma FatedRowsAreOwn(m: Db, f: Id, policy: Policy, now: Time, k: Key)
    requires Schema(m) && Coherent(m) && k in m && FateOf(m, f, policy, now, k) != Stays
    ensures FamilyOf(m, k) == Some(f)
  {
    if OfFamilyRows(m, k, f) {
      FamilyRowsAreOwn(m, f, k);
    } else if k.table == INVOICES {
      BehindIsOwn(m, f, k, SubscriptionRef, SUBSCRIPTIONS);
    } else if k.table == OAUTH_ACCOUNTS || k.table == EMAIL_TOKENS {
      BehindIsOwn(m, f, k, ParentRef, PARENTS);
    } else if k != Key(FAMILIES, f) {
      PointingRows(m, f, k);
    }
  }

  lemma TablesWithFamily(t: Table)
    requires t in WITH_FAMILY
    ensures t in FAMILY_LEAVES + ACCOUNT_LEAVES + {CHILDREN, CONVERSATIONS, SUBJECT_PROGRESS}
         || t in {SUBSCRIPTIONS, PARENTS, CONSENT_RECORDS, STRUGGLE_TRACKERS}
  {
  }

  lemma TrackersGoWithTheirChild(m: Db, f: Id, k: Key)
    requires Schema(m) && Coherent(m) && k in m && k.table == STRUGGLE_TRACKERS && Points(m[k], FamilyRef, f)
    ensures OfChildren(m, k, ChildrenOf(m, f))
  {
    assert NotNull(k.table, ChildRef) && ChildRef in m[k].refs && ActionOf(k.table, ChildRef) != NoForeignKey;
    assert KeepsToFamily(m, k, ChildRef);
    assert Key(CHILDREN, m[k].refs[ChildRef]) in Sel(m, {CHILDREN}, FamilyRef, {f});
  }

  lemma ColumnRowsAreFated(m: Db, f: Id, policy: Policy, now: Time, k: Key)
    requires Schema(m) && Coherent(m) && k in m && Points(m[k], FamilyRef, f)
    ensures FateOf(m, f, policy, now, k) != Stays
  {
    assert HasColumn(k.table, FamilyRef);
    TablesWithFamily(k.table);
    if k.table == STRUGGLE_TRACKERS { TrackersGoWithTheirChild(m, f, k); }
  }

  lemma OwnedRowsAreFated(m: Db, f: Id, policy: Policy, now: Time, k: Key, h: Field)
    requires Schema(m) && Coherent(m) && k in m
    requires OwnerColumn(k.table) == Some(h) && FamilyBehind(m, m[k], h) == Some(f)
    ensures FateOf(m, f, policy, now, k) != Stays
  {
    var o := Key(Target(h), m[k].refs[h]);
    assert Points(m[o], FamilyRef, f);
    if o.table == SUBSCRIPTIONS {
      assert o in Sel(m, {SUBSCRIPTIONS}, FamilyRef, {f});
    } else if o.table == PARENTS {
      assert o in Sel(m, {PARENTS}, FamilyRef, {f});
    } else {
      assert Under(m, k, o.table, h, FamilyRef, {f});
    }
  }

  /** The purge concerns exactly the rows of the family. */
  lemma FatedExactlyOwnRows(m: Db, f: Id, policy: Policy, now: Time, k: Key)
    requires Schema(m) && Coherent(m) && k in m
    ensures FateOf(m, f, policy, now, k) != Stays <==> FamilyOf(m, k) == Some(f)
  {
    if FateOf(m, f, policy, now, k) != Stays {
      FatedRowsAreOwn(m, f, policy, now, k);
    } else if FamilyOf(m, k) == Some(f) {
      if FamilyRef in m[k].refs {
        ColumnRowsAreFated(m, f, policy, now, k);
      } else if k.table != FAMILIES {
        OwnedRowsAreFated(m, f, policy, now, k, OwnerColumn(k.table).value);
      }
    }
  }

  /** What the law asks to keep: recent invoices, and recent consents that name no child. */
  predicate LegallyKept(m: Db, policy: Policy, now: Time, k: Key)
    requires k in m
  {
    || (k.table == INVOICES && policy.invoiceDays > 0 && m[k].stamp >= now - policy.invoiceDays * DAY_MS)
    || (k.table == CONSENT_RECORDS && ChildRef !in m[k].refs
        && policy.consentDays > 0 && m[k].stamp >= now - policy.consentDays * DAY_MS)
  }

  lemma ConsentOfAChild(m: Db, f: Id, k: Key)
    requires Schema(m) && Coherent(m) && k in m && k.table == CONSENT_RECORDS && Points(m[k], FamilyRef, f)
    ensures OfFamilyRows(m, k, f) <==> ChildRef in m[k].refs
  {
    if ChildRef in m[k].refs {
      assert ActionOf(k.table, ChildRef) != NoForeignKey;
      assert KeepsToFamily(m, k, ChildRef);
      assert Key(CHILDREN, m[k].refs[ChildRef]) in Sel(m, {CHILDREN}, FamilyRef, {f});
    }
  }

  lemma InvoicesAreNoFamilyRows(m: Db, f: Id, k: Key)
    requires Shaped(m) && k in m && k.table == INVOICES
    ensures !OfFamilyRows(m, k, f)
  {
    OwnedTables(INVOICES);
    assert ChildRef in m[k].refs ==> HasColumn(INVOICES, ChildRef);
  }

  /** A row of the family goes unless the law keeps it. */
  lemma GoesUnlessLegallyKept(m: Db, f: Id, policy: Policy, now: Time, k: Key)
    requires Schema(m) && Coherent(m) && k in m && FateOf(m, f, policy, now, k) != Stays
    ensures FateOf(m, f, policy, now, k) == Goes <==> !LegallyKept(m, policy, now, k)
  {
    if k.table == CONSENT_RECORDS {
      FatedRowsAreOwn(m, f, policy, now, k);
      assert NotNull(k.table, FamilyRef) && FamilyRef in m[k].refs;
      ConsentOfAChild(m, f, k);
    } else if k.table == INVOICES {
      InvoicesAreNoFamilyRows(m, f, k);
    }
  }

  /** Whatever belongs to another family survives unchanged; whatever belonged to this one
      survives exactly if the law keeps it, and then the tombstone has it. */
  lemma PurgeTakesOnlyItsFamily(m: Db, f: Id, policy: Policy, now: Time, choice: Choice, m': Db, k: Key)
    requires Schema(m) && Coherent(m) && IsPurged(m, f, policy, now, choice, m') && k in m
    ensures FamilyOf(m, k) != Some(f) ==> k in m' && m'[k] == m[k]
    ensures FamilyOf(m, k) == Some(f) ==> (k in m' <==> LegallyKept(m, policy, now, k))
  {
    assert Fated(m, f, policy, now, choice, m', k);
    FatedExactlyOwnRows(m, f, policy, now, k);
    if FamilyOf(m, k) == Some(f) {
      GoesUnlessLegallyKept(m, f, policy, now, k);
    }
  }

  // ---- the database it leaves ----

  lemma OwnerRefStays(m: Db, k: Key, h: Field)
    requires Shaped(m) && Filled(m) && k in m && h in m[k].refs && OwnerColumn(k.table) == Some(h)
    requires Key(Target(h), m[k].refs[h]) in m
    ensures FamilyOf(m, k) == FamilyOf(m, Key(Target(h), m[k].refs[h]))
  {
    var t := Key(Target(h), m[k].refs[h]);
    assert NotNull(t.table, FamilyRef) && FamilyRef in m[t].refs;
    OwnedBehind(m, m[t].refs[FamilyRef], k, h);
    PointingRows(m, m[t].refs[FamilyRef], t);
  }

  lemma LinkedTables(t: Table, h: Field)
    requires HasColumn(t, h) && h !in {PlanRef, FamilyRef} && OwnerColumn(t) != Some(h)
    ensures h in {ChildRef, ParentRef, SubscriptionRef} && t in WITH_FAMILY
  {
  }

  lemma LinkedRefStays(m: Db, k: Key, h: Field)
    requires Shaped(m) && Coherent(m) && k in m && h in m[k].refs && Key(Target(h), m[k].refs[h]) in m
    requires h !in {PlanRef, FamilyRef} && OwnerColumn(k.table) != Some(h)
    ensures FamilyOf(m, k) == FamilyOf(m, Key(Target(h), m[k].refs[h]))
  {
    assert HasColumn(k.table, h);
    LinkedTables(k.table, h);
    assert NotNull(k.table, FamilyRef) && FamilyRef in m[k].refs;
    assert KeepsToFamily(m, k, h);
    PointingRows(m, m[k].refs[FamilyRef], k);
    PointingRows(m, m[k].refs[FamilyRef], Key(Target(h), m[k].refs[h]));
  }

  /** Every reference but a plan's stays inside its row's family. */
  lemma RefsStayInFamily(m: Db, k: Key, h: Field)
    requires Shaped(m) && Coherent(m) && k in m && h in m[k].refs && h != PlanRef
    requires Key(Target(h), m[k].refs[h]) in m
    ensures FamilyOf(m, k) == FamilyOf(m, Key(Target(h), m[k].refs[h]))
  {
    if h == FamilyRef {
      PointingRows(m, m[k].refs[FamilyRef], k);
    } else if OwnerColumn(k.table) == Some(h) {
      OwnerRefStays(m, k, h);
    } else {
      LinkedRefStays(m, k, h);
    }
  }

  lemma PlansBelongToNone(m: Db, k: Key)
    requires Shaped(m) && k in m && k.table == PLANS
    ensures FamilyOf(m, k) == None
  {
    assert FamilyRef in m[k].refs ==> HasColumn(PLANS, FamilyRef);
  }

  /** What another family's row refers to is still there, unchanged. */
  lemma TargetStands(m: Db, f: Id, policy: Policy, now: Time, choice: Choice, m': Db, k: Key, h: Field)
    requires Schema(m) && Coherent(m) && IsPurged(m, f, policy, now, choice, m')
    requires k in m && FamilyOf(m, k) != Some(f) && h in m[k].refs && Key(Target(h), m[k].refs[h]) in m
    ensures var t := Key(Target(h), m[k].refs[h]); t in m' && m'[t] == m[t]
  {
    var t := Key(Target(h), m[k].refs[h]);
    if h == PlanRef { PlansBelongToNone(m, t); } else { RefsStayInFamily(m, k, h); }
    PurgeTakesOnlyItsFamily(m, f, policy, now, choice, m', t);
  }

  /** A row the purge keeps for the law hangs on the tombstone. */
  lemma KeptRowIs(m: Db, f: Id, policy: Policy, now: Time, choice: Choice, m': Db, k: Key)
    requires Schema(m) && Coherent(m) && IsPurged(m, f, policy, now, choice, m')
    requires k in m && k in m' && FamilyOf(m, k) == Some(f)
    ensures k.table == INVOICES || k.table == CONSENT_RECORDS
    ensures k.table == INVOICES ==>
      SubscriptionRef in m[k].refs && m'[k] == m[k].(refs := m[k].refs[SubscriptionRef := TombSubId(m, choice)])
      && KeepsInvoice(m, f, policy, now)
    ensures k.table == CONSENT_RECORDS ==> m'[k] == Detach(m[k]) && KeepsConsent(m, f, policy, now)
  {
    assert Fated(m, f, policy, now, choice, m', k);
    FatedExactlyOwnRows(m, f, policy, now, k);
  }

  lemma InvoiceNeedsPlan(m: Db, f: Id, policy: Policy, now: Time, choice: Choice)
    requires Schema(m) && Allowed(m, choice) && KeepsInvoice(m, f, policy, now)
    ensures choice.planId.Some?
  {
    var k :| k in m && FateOf(m, f, policy, now, k) == InvoiceKept;
    assert SubscriptionRef in m[k].refs && ActionOf(k.table, SubscriptionRef) != NoForeignKey;
    PlanForTombstone(m, choice, Key(SUBSCRIPTIONS, m[k].refs[SubscriptionRef]));
  }

  /** The rows that were not there are the tombstone's. */
  lemma NewRowIs(m: Db, f: Id, policy: Policy, now: Time, choice: Choice, m': Db, k: Key)
    requires Schema(m) && Allowed(m, choice) && IsPurged(m, f, policy, now, choice, m') && k in m' && k !in m
    ensures || (k == Key(FAMILIES, TOMBSTONE_FAMILY) && m'[k] == Row(map[], 0, None))
            || (&& k == Key(SUBSCRIPTIONS, choice.subId) && TombSubs(m) == {} && choice.planId.Some?
                && m'[k] == Row(map[FamilyRef := TOMBSTONE_FAMILY, PlanRef := choice.planId.value], 0, None)
                && KeepsInvoice(m, f, policy, now))
  {
    assert Fated(m, f, policy, now, choice, m', k);
    if k.table == SUBSCRIPTIONS {
      InvoiceNeedsPlan(m, f, policy, now, choice);
    }
  }

  lemma TombFamilyStands(m: Db, f: Id, policy: Policy, now: Time, choice: Choice, m': Db)
    requires Schema(m) && Coherent(m) && f != TOMBSTONE_FAMILY && IsPurged(m, f, policy, now, choice, m')
    requires KeepsInvoice(m, f, policy, now) || KeepsConsent(m, f, policy, now)
    ensures Key(FAMILIES, TOMBSTONE_FAMILY) in m'
  {
    var k := Key(FAMILIES, TOMBSTONE_FAMILY);
    if k in m {
      PurgeTakesOnlyItsFamily(m, f, policy, now, choice, m', k);
    } else {
      assert Fated(m, f, policy, now, choice, m', k);
    }
  }

  lemma TombSubStands(m: Db, f: Id, policy: Policy, now: Time, choice: Choice, m': Db)
    requires Schema(m) && Coherent(m) && f != TOMBSTONE_FAMILY && Allowed(m, choice)
    requires IsPurged(m, f, policy, now, choice, m') && KeepsInvoice(m, f, policy, now)
    ensures var s := Key(SUBSCRIPTIONS, TombSubId(m, choice)); s in m' && Points(m'[s], FamilyRef, TOMBSTONE_FAMILY)
  {
    var s := Key(SUBSCRIPTIONS, TombSubId(m, choice));
    if TombSubs(m) != {} {
      assert s in TombSubs(m);
      PurgeTakesOnlyItsFamily(m, f, policy, now, choice, m', s);
    } else {
      assert Fated(m, f, policy, now, choice, m', s);
    }
  }

  lemma InvoiceBehind(m: Db, k: Key, s: Id, g: Id)
    requires k in m && k.table == INVOICES && FamilyRef !in m[k].refs && Points(m[k], SubscriptionRef, s)
    requires Key(SUBSCRIPTIONS, s) in m && Points(m[Key(SUBSCRIPTIONS, s)], FamilyRef, g)
    ensures FamilyOf(m, k) == Some(g)
  {
  }

  lemma KeptInvoiceIsTheTombstones(m: Db, f: Id, policy: Policy, now: Time, choice: Choice, m': Db, k: Key)
    requires Schema(m) && Coherent(m) && f != TOMBSTONE_FAMILY && Allowed(m, choice)
    requires IsPurged(m, f, policy, now, choice, m') && KeepsInvoice(m, f, policy, now)
    requires k in m && k in m' && k.table == INVOICES
    requires m'[k] == m[k].(refs := m[k].refs[SubscriptionRef := TombSubId(m, choice)])
    ensures FamilyOf(m', k) == Some(TOMBSTONE_FAMILY)
  {
    TombSubStands(m, f, policy, now, choice, m');
    assert FamilyRef !in m[k].refs by {
      OwnedTables(INVOICES);
      assert FamilyRef in m[k].refs ==> HasColumn(INVOICES, FamilyRef);
    }
    InvoiceBehind(m', k, TombSubId(m, choice), TOMBSTONE_FAMILY);
  }

  lemma KeptRowIsTheTombstones(m: Db, f: Id, policy: Policy, now: Time, choice: Choice, m': Db, k: Key)
    requires Schema(m) && Coherent(m) && f != TOMBSTONE_FAMILY && Allowed(m, choice)
    requires IsPurged(m, f, policy, now, choice, m') && k in m && k in m' && FamilyOf(m, k) == Some(f)
    ensures FamilyOf(m', k) == Some(TOMBSTONE_FAMILY)
  {
    KeptRowIs(m, f, policy, now, choice, m', k);
    if k.table == INVOICES {
      KeptInvoiceIsTheTombstones(m, f, policy, now, choice, m', k);
    }
  }

  lemma ConsentColumn(h: Field)
    ensures HasColumn(CONSENT_RECORDS, h) <==> h in {FamilyRef, ParentRef, ChildRef}
    ensures NotNull(CONSENT_RECORDS, h) <==> h == FamilyRef
  {
  }

  lemma InvoiceIsOwn(m: Db, f: Id, k: Key, s: Key)
    requires Schema(m) && s in m && s.table == SUBSCRIPTIONS && Points(m[s], FamilyRef, f)
    requires k in m && k.table == INVOICES && Points(m[k], SubscriptionRef, s.id)
    ensures FamilyOf(m, k) == Some(f)
  {
    assert FamilyRef in m[k].refs ==> HasColumn(INVOICES, FamilyRef);
  }

  /** An invoice of the family's subscription survives exactly if retention is on and it was issued
      within the last `invoiceDays` days, and then it hangs on the tombstone's subscription. */
  lemma InvoiceKeptIffRecent(m: Db, f: Id, policy: Policy, now: Time, choice: Choice, m': Db, k: Key, s: Key)
    requires Schema(m) && Coherent(m) && f != TOMBSTONE_FAMILY && Allowed(m, choice)
    requires IsPurged(m, f, policy, now, choice, m')
    requires s in m && s.table == SUBSCRIPTIONS && Points(m[s], FamilyRef, f)
    requires k in m && k.table == INVOICES && Points(m[k], SubscriptionRef, s.id)
    ensures k in m' <==> policy.invoiceDays > 0 && m[k].stamp >= now - policy.invoiceDays * DAY_MS
    ensures k in m' ==> m'[k].stamp == m[k].stamp
    ensures k in m' ==> exists t :: t in m' && t.table == SUBSCRIPTIONS && t != s
                                    && Points(m'[t], FamilyRef, TOMBSTONE_FAMILY) && Points(m'[k], SubscriptionRef, t.id)
  {
    InvoiceIsOwn(m, f, k, s);
    PurgeTakesOnlyItsFamily(m, f, policy, now, choice, m', k);
    if k in m' {
      KeptRowIs(m, f, policy, now, choice, m', k);
      TombSubStands(m, f, policy, now, choice, m');
      InvoiceIsOwn(m, f, k, s);
      var t := Key(SUBSCRIPTIONS, TombSubId(m, choice));
      assert Points(m'[k], SubscriptionRef, t.id);
      PointingRows(m, f, s);
      PurgeTakesOnlyItsFamily(m, f, policy, now, choice, m', s);
    }
  }

  /** A consent of the family survives exactly if it names no child, retention is on and it was given
      within the last `consentDays` days, and then it names the tombstone family and nothing else. */
  lemma ConsentKeptIffRecent(m: Db, f: Id, policy: Policy, now: Time, choice: Choice, m': Db, k: Key)
    requires Schema(m) && Coherent(m) && IsPurged(m, f, policy, now, choice, m')
    requires k in m && k.table == CONSENT_RECORDS && Points(m[k], FamilyRef, f)
    ensures k in m' <==> ChildRef !in m[k].refs && policy.consentDays > 0 && m[k].stamp >= now - policy.consentDays * DAY_MS
    ensures k in m' ==> m'[k].stamp == m[k].stamp && m'[k].refs == map[FamilyRef := TOMBSTONE_FAMILY]
  {
    PointingRows(m, f, k);
    PurgeTakesOnlyItsFamily(m, f, policy, now, choice, m', k);
    if k in m' {
      KeptRowIs(m, f, policy, now, choice, m', k);
      forall h | h in m[k].refs ensures h in {FamilyRef, ParentRef, ChildRef} {
        assert HasColumn(k.table, h);
        ConsentColumn(h);
      }
    }
  }

  /** Of two invoices of the subscription the newer is kept if the older is; with no days none is. */
  lemma NewerInvoiceIsKeptToo(m: Db, f: Id, policy: Policy, now: Time, choice: Choice, m': Db, older: Key, newer: Key, s: Key)
    requires Schema(m) && Coherent(m) && f != TOMBSTONE_FAMILY && Allowed(m, choice)
    requires IsPurged(m, f, policy, now, choice, m')
    requires s in m && s.table == SUBSCRIPTIONS && Points(m[s], FamilyRef, f)
    requires older in m && older.table == INVOICES && Points(m[older], SubscriptionRef, s.id)
    requires newer in m && newer.table == INVOICES && Points(m[newer], SubscriptionRef, s.id)
    requires m[older].stamp <= m[newer].stamp
    ensures older in m' ==> newer in m'
    ensures policy.invoiceDays == 0 ==> older !in m' && newer !in m'
  {
    InvoiceKeptIffRecent(m, f, policy, now, choice, m', older, s);
    InvoiceKeptIffRecent(m, f, policy, now, choice, m', newer, s);
  }

  lemma OwnerStands(m: Db, f: Id, policy: Policy, now: Time, choice: Choice, m': Db, k: Key, h: Field)
    requires Schema(m) && Coherent(m) && IsPurged(m, f, policy, now, choice, m')
    requires k in m && FamilyOf(m, k) != Some(f) && OwnerColumn(k.table) == Some(h)
    ensures FamilyBehind(m', m[k], h) == FamilyBehind(m, m[k], h)
  {
    assert NotNull(k.table, h) && h in m[k].refs && ActionOf(k.table, h) != NoForeignKey;
    TargetStands(m, f, policy, now, choice, m', k, h);
  }

  lemma OtherRowKeepsFamily(m: Db, f: Id, policy: Policy, now: Time, choice: Choice, m': Db, k: Key)
    requires Schema(m) && Coherent(m) && IsPurged(m, f, policy, now, choice, m')
    requires k in m && FamilyOf(m, k) != Some(f)
    ensures k in m' && m'[k] == m[k] && FamilyOf(m', k) == FamilyOf(m, k)
  {
    PurgeTakesOnlyItsFamily(m, f, policy, now, choice, m', k);
    if OwnerColumn(k.table).Some? {
      OwnerStands(m, f, policy, now, choice, m', k, OwnerColumn(k.table).value);
    }
  }

  /** After the purge no row belongs to the family: the others belong where they did, and what
      was kept or created belongs to the tombstone. */
  lemma NothingOfTheFamilyIsLeft(m: Db, f: Id, policy: Policy, now: Time, choice: Choice, m': Db, k: Key)
    requires Schema(m) && Coherent(m) && f != TOMBSTONE_FAMILY && Allowed(m, choice)
    requires IsPurged(m, f, policy, now, choice, m') && k in m'
    ensures FamilyOf(m', k) == if k in m && FamilyOf(m, k) != Some(f) then FamilyOf(m, k) else Some(TOMBSTONE_FAMILY)
  {
    if k !in m {
      NewRowIs(m, f, policy, now, choice, m', k);
    } else if FamilyOf(m, k) == Some(f) {
      KeptRowIsTheTombstones(m, f, policy, now, choice, m', k);
    } else {
      OtherRowKeepsFamily(m, f, policy, now, choice, m', k);
    }
  }

  // ---- the schema and coherence survive ----

  lemma InvoiceColumn(h: Field)
    ensures HasColumn(INVOICES, h) <==> h == SubscriptionRef
    ensures NotNull(INVOICES, h) <==> h == SubscriptionRef
  {
  }

  /** A kept row refers to the tombstone and to nothing else. */
  lemma KeptRowRefs(m: Db, f: Id, policy: Policy, now: Time, choice: Choice, m': Db, k: Key, h: Field)
    requires Schema(m) && Coherent(m) && IsPurged(m, f, policy, now, choice, m')
    requires k in m && k in m' && FamilyOf(m, k) == Some(f)
    ensures k.table == INVOICES || k.table == CONSENT_RECORDS
    ensures k.table == INVOICES ==> (h in m'[k].refs <==> h == SubscriptionRef)
    ensures k.table == INVOICES ==> Points(m'[k], SubscriptionRef, TombSubId(m, choice)) && KeepsInvoice(m, f, policy, now)
    ensures k.table == CONSENT_RECORDS ==> (h in m'[k].refs <==> h == FamilyRef)
    ensures k.table == CONSENT_RECORDS ==> Points(m'[k], FamilyRef, TOMBSTONE_FAMILY) && KeepsConsent(m, f, policy, now)
  {
    KeptRowIs(m, f, policy, now, choice, m', k);
    if h in m[k].refs {
      assert HasColumn(k.table, h);
      if k.table == INVOICES { InvoiceColumn(h); } else { ConsentColumn(h); }
    }
  }

  lemma KeptColumns(m: Db, f: Id, policy: Policy, now: Time, choice: Choice, m': Db, k: Key, h: Field)
    requires Schema(m) && Coherent(m) && IsPurged(m, f, policy, now, choice, m')
    requires k in m && k in m' && FamilyOf(m, k) == Some(f)
    ensures h in m'[k].refs ==> HasColumn(k.table, h)
    ensures NotNull(k.table, h) ==> h in m'[k].refs
    ensures k.table != SUBSCRIPTIONS
  {
    KeptRowRefs(m, f, policy, now, choice, m', k, h);
    if k.table == INVOICES { InvoiceColumn(h); } else { ConsentColumn(h); }
  }

  lemma NewColumns(m: Db, f: Id, policy: Policy, now: Time, choice: Choice, m': Db, k: Key, h: Field)
    requires Schema(m) && Allowed(m, choice) && IsPurged(m, f, policy, now, choice, m') && k in m' && k !in m
    ensures h in m'[k].refs ==> HasColumn(k.table, h)
    ensures k.table == SUBSCRIPTIONS ==> PlanRef in m'[k].refs
    ensures NotNull(k.table, h) ==> h in m'[k].refs
  {
    NewRowIs(m, f, policy, now, choice, m', k);
  }

  lemma ColumnsKept(m: Db, f: Id, policy: Policy, now: Time, choice: Choice, m': Db, k: Key, h: Field)
    requires Schema(m) && Coherent(m) && f != TOMBSTONE_FAMILY && Allowed(m, choice)
    requires IsPurged(m, f, policy, now, choice, m') && k in m'
    ensures h in m'[k].refs ==> HasColumn(k.table, h)
    ensures k.table == SUBSCRIPTIONS ==> PlanRef in m'[k].refs
    ensures NotNull(k.table, h) ==> h in m'[k].refs
  {
    if k !in m {
      NewColumns(m, f, policy, now, choice, m', k, h);
    } else if FamilyOf(m, k) == Some(f) {
      KeptColumns(m, f, policy, now, choice, m', k, h);
    } else {
      OtherRowKeepsFamily(m, f, policy, now, choice, m', k);
      assert h in m[k].refs ==> HasColumn(k.table, h);
      assert NotNull(k.table, h) ==> h in m[k].refs;
    }
  }

  lemma KeptRefsKept(m: Db, f: Id, policy: Policy, now: Time, choice: Choice, m': Db, k: Key, h: Field)
    requires Schema(m) && Coherent(m) && f != TOMBSTONE_FAMILY && Allowed(m, choice)
    requires IsPurged(m, f, policy, now, choice, m') && k in m && k in m' && h in m'[k].refs && FamilyOf(m, k) == Some(f)
    ensures Key(Target(h), m'[k].refs[h]) in m'
    ensures h in {ChildRef, ParentRef, SubscriptionRef} ==> FamilyRef !in m'[k].refs
  {
    KeptRowRefs(m, f, policy, now, choice, m', k, h);
    KeptRowRefs(m, f, policy, now, choice, m', k, FamilyRef);
    if k.table == INVOICES {
      TombSubStands(m, f, policy, now, choice, m');
    } else {
      TombFamilyStands(m, f, policy, now, choice, m');
    }
  }

  lemma NewRefsKept(m: Db, f: Id, policy: Policy, now: Time, choice: Choice, m': Db, k: Key, h: Field)
    requires Schema(m) && Coherent(m) && f != TOMBSTONE_FAMILY && Allowed(m, choice)
    requires IsPurged(m, f, policy, now, choice, m') && k in m' && h in m'[k].refs && k !in m
    ensures h == FamilyRef || h == PlanRef
    ensures Key(Target(h), m'[k].refs[h]) in m'
  {
    NewRowIs(m, f, policy, now, choice, m', k);
    if h == PlanRef {
      var t := Key(PLANS, choice.planId.value);
      PlansBelongToNone(m, t);
      PurgeTakesOnlyItsFamily(m, f, policy, now, choice, m', t);
    } else {
      TombFamilyStands(m, f, policy, now, choice, m');
    }
  }

  lemma OtherRefsKept(m: Db, f: Id, policy: Policy, now: Time, choice: Choice, m': Db, k: Key, h: Field)
    requires Schema(m) && Coherent(m) && Allowed(m, choice)
    requires IsPurged(m, f, policy, now, choice, m') && k in m && k in m' && FamilyOf(m, k) != Some(f) && h in m'[k].refs
    ensures ActionOf(k.table, h) != NoForeignKey ==> Key(Target(h), m'[k].refs[h]) in m'
    ensures h in {ChildRef, ParentRef, SubscriptionRef} ==> KeepsToFamily(m', k, h)
  {
    OtherRowKeepsFamily(m, f, policy, now, choice, m', k);
    var t := Key(Target(h), m[k].refs[h]);
    if t in m {
      TargetStands(m, f, policy, now, choice, m', k, h);
      assert h in {ChildRef, ParentRef, SubscriptionRef} ==> KeepsToFamily(m, k, h);
    } else if t in m' {
      NewRowIs(m, f, policy, now, choice, m', t);
      assert ActionOf(k.table, h) == NoForeignKey;
    }
  }

  /** A reference of the new database has its target, in the row's own family. */
  lemma RefsKept(m: Db, f: Id, policy: Policy, now: Time, choice: Choice, m': Db, k: Key, h: Field)
    requires Schema(m) && Coherent(m) && f != TOMBSTONE_FAMILY && Allowed(m, choice)
    requires IsPurged(m, f, policy, now, choice, m') && k in m' && h in m'[k].refs
    ensures ActionOf(k.table, h) != NoForeignKey ==> Key(Target(h), m'[k].refs[h]) in m'
    ensures h in {ChildRef, ParentRef, SubscriptionRef} ==> KeepsToFamily(m', k, h)
  {
    if k !in m {
      NewRowIs(m, f, policy, now, choice, m', k);
      NewRefsKept(m, f, policy, now, choice, m', k, h);
    } else if FamilyOf(m, k) == Some(f) {
      KeptRefsKept(m, f, policy, now, choice, m', k, h);
    } else {
      OtherRefsKept(m, f, policy, now, choice, m', k, h);
    }
  }

  lemma SubscriptionRow(m: Db, f: Id, policy: Policy, now: Time, choice: Choice, m': Db, k: Key)
    requires Schema(m) && Coherent(m) && f != TOMBSTONE_FAMILY && Allowed(m, choice)
    requires IsPurged(m, f, policy, now, choice, m') && k in m' && k.table == SUBSCRIPTIONS
    ensures k in m ==> m'[k] == m[k]
    ensures k !in m ==> k.id == choice.subId && TombSubs(m) == {} && Points(m'[k], FamilyRef, TOMBSTONE_FAMILY)
  {
    if k !in m {
      NewRowIs(m, f, policy, now, choice, m', k);
    } else if FamilyOf(m, k) == Some(f) {
      KeptRowIs(m, f, policy, now, choice, m', k);
    } else {
      OtherRowKeepsFamily(m, f, policy, now, choice, m', k);
    }
  }

  lemma SubscriptionsStayUnique(m: Db, f: Id, policy: Policy, now: Time, choice: Choice, m': Db, j: Key, k: Key)
    requires Schema(m) && Coherent(m) && f != TOMBSTONE_FAMILY && Allowed(m, choice)
    requires IsPurged(m, f, policy, now, choice, m') && j in m' && k in m'
    requires j.table == SUBSCRIPTIONS && k.table == SUBSCRIPTIONS && FamilyRef in m'[j].refs
    requires Points(m'[k], FamilyRef, m'[j].refs[FamilyRef])
    ensures j == k
  {
    SubscriptionRow(m, f, policy, now, choice, m', j);
    SubscriptionRow(m, f, policy, now, choice, m', k);
    assert j in m && Points(m[j], FamilyRef, TOMBSTONE_FAMILY) ==> j in TombSubs(m);
    assert k in m && Points(m[k], FamilyRef, TOMBSTONE_FAMILY) ==> k in TombSubs(m);
  }

  /** A purge leaves a database as sound as it found it. */
  lemma PurgeKeepsSchemaAndCoherence(m: Db, f: Id, policy: Policy, now: Time, choice: Choice, m': Db)
    requires Schema(m) && Coherent(m) && f != TOMBSTONE_FAMILY && Allowed(m, choice)
    requires IsPurged(m, f, policy, now, choice, m')
    ensures Schema(m') && Coherent(m')
  {
    forall k, h {:trigger h in m'[k].refs} | k in m'
      ensures h in m'[k].refs ==> HasColumn(k.table, h)
      ensures k.table == SUBSCRIPTIONS ==> PlanRef in m'[k].refs
      ensures NotNull(k.table, h) ==> h in m'[k].refs
    {
      ColumnsKept(m, f, policy, now, choice, m', k, h);
    }
    forall k, h {:trigger h in m'[k].refs} | k in m' && h in m'[k].refs
      ensures ActionOf(k.table, h) != NoForeignKey ==> Key(Target(h), m'[k].refs[h]) in m'
      ensures h in {ChildRef, ParentRef, SubscriptionRef} ==> KeepsToFamily(m', k, h)
    {
      RefsKept(m, f, policy, now, choice, m', k, h);
    }
    forall j, k | j in m' && k in m' && j.table == SUBSCRIPTIONS && k.table == SUBSCRIPTIONS
      && FamilyRef in m'[j].refs && Points(m'[k], FamilyRef, m'[j].refs[FamilyRef])
      ensures j == k
    {
      SubscriptionsStayUnique(m, f, policy, now, choice, m', j, k);
    }
  }
}
