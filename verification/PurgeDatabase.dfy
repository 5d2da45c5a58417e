/** The purge programs as they run: one delete after another on a mutable database
    (src/modules/settings/settings.service.ts, src/modules/children/children.service.ts,
    src/modules/billing/billing.service.ts). */
module PurgeDatabase {
  import opened Common
  import opened RetentionPurge
  import opened PurgeSweeps

  function ChildPurged(m: Db, c: Id, now: Time): Db {
    if Due(m, Key(CHILDREN, c), now) then m - ChildRows(m, c) else m
  }

  /** The sweep over soft-deleted children, one transaction per scanned candidate. */
  function ChildrenSwept(m: Db, candidates: seq<Id>, now: Time): Db
    decreases |candidates|
  {
    if candidates == [] then m
    else ChildrenSwept(ChildPurged(m, candidates[0], now), candidates[1..], now)
  }

  lemma OtherChildrenStay(m: Db, c: Id, now: Time, d: Id)
    requires Shaped(m) && c != d
    ensures var k := Key(CHILDREN, d);
            && (k in ChildPurged(m, c, now) <==> k in m)
            && (k in m ==> k in ChildPurged(m, c, now) && ChildPurged(m, c, now)[k] == m[k])
  {
    var k := Key(CHILDREN, d);
    if k in ChildRows(m, c) { ChildRowTables(m, c, k); }
  }

  lemma SweepsKeepShape(m: Db, c: Id, now: Time)
    requires Shaped(m)
    ensures Shaped(ChildPurged(m, c, now))
  {
  }

  /** The sweep deletes exactly the scanned children still marked and due, whatever it lists. */
  lemma {:induction false} SweepTakesTheDueChildren(m: Db, candidates: seq<Id>, now: Time, d: Id)
    requires Shaped(m)
    ensures var k := Key(CHILDREN, d);
            k in ChildrenSwept(m, candidates, now) <==> k in m && !(d in candidates && Due(m, k, now))
    decreases |candidates|
  {
    if candidates != [] {
      var c := candidates[0];
      SweepsKeepShape(m, c, now);
      SweepTakesTheDueChildren(ChildPurged(m, c, now), candidates[1..], now, d);
      if c != d { OtherChildrenStay(m, c, now, d); }
    }
  }

  datatype RestoreResult = Restored | ChildNotFound | WindowExpired | NoSlot

  datatype WindowResult = Done | FamilyNotFound | NotPending | WindowElapsed

  lemma ChildIsFree(m: Db, c: Id)
    requires Shaped(m)
    ensures var m1 := m - ChildDependents(m, {c});
            && !Blocked(m1, {Key(CHILDREN, c)})
            && m1 - ({Key(CHILDREN, c)} + Cascaded(m1, {Key(CHILDREN, c)})) == m - ChildRows(m, c)
  {
    ChildrenAreFree(m, {c}, {Key(CHILDREN, c)});
  }

  lemma SubscriptionIsFree(m: Db, s: Id)
    requires Shaped(m)
    ensures var m1 := m - Sel(m, {INVOICES, PAYMENT_INTENTS}, SubscriptionRef, {s});
            && !Blocked(m1, {Key(SUBSCRIPTIONS, s)})
            && m1 - ({Key(SUBSCRIPTIONS, s)} + Cascaded(m1, {Key(SUBSCRIPTIONS, s)})) == m - SubscriptionRows(m, s)
  {
    var m1 := m - Sel(m, {INVOICES, PAYMENT_INTENTS}, SubscriptionRef, {s});
    forall k, h | k in m1 && h in m1[k].refs
      ensures Key(Target(h), m1[k].refs[h]) != Key(SUBSCRIPTIONS, s)
    {
      assert HasColumn(k.table, h);
    }
    assert Cascaded(m1, {Key(SUBSCRIPTIONS, s)}) == {};
  }

  class Database {
    var m: Db

    /** A delete is refused as a whole when a restricting reference would be left. */
    method DeleteRows(gone: set<Key>) returns (ok: bool)
      modifies this
      ensures ok == !Blocked(old(m), gone)
      ensures m == if ok then old(m) - (gone + Cascaded(old(m), gone)) else old(m)
    {
      if Blocked(m, gone) { return false; }
      m := m - (gone + Cascaded(m, gone));
      return true;
    }

    /** One `deleteMany` on a column. */
    method DeleteMany(t: Table, f: Field, ids: set<Id>) returns (ok: bool)
      modifies this
      ensures var gone := Sel(old(m), {t}, f, ids);
              && ok == !Blocked(old(m), gone)
              && m == if ok then old(m) - (gone + Cascaded(old(m), gone)) else old(m)
    {
      ok := DeleteRows(Sel(m, {t}, f, ids));
    }

    /** A `deleteMany` on a table nothing points into never fails; `ts` collects the tables that
        were cleared of the same ids before. */
    method DeleteLeaf(t: Table, f: Field, ids: set<Id>, ghost start: Db, ghost ts: set<Table>) returns (ghost ts': set<Table>)
      requires Leaf(t) && m == start - Sel(start, ts, f, ids)
      modifies this
      ensures ts' == ts + {t} && m == start - Sel(start, ts', f, ids)
    {
      LeavesAreFree(m, Sel(m, {t}, f, ids));
      ts' := ts + {t};
      assert Sel(start, ts', f, ids) == Sel(start, ts, f, ids) + Sel(m, {t}, f, ids);
      var _ := DeleteMany(t, f, ids);
    }

    /** Deletes owners (subjects, conversations) after the rows under them. */
    method DeleteOwners(t: Table, u: Table, f: Field, g: Field, ids: set<Id>) returns (ok: bool)
      requires Shaped(m) && OwnerOf(t, u, f)
      modifies this
      ensures ok && m == old(m) - WithLeaves(old(m), t, u, f, g, ids)
    {
      var owners := IdsOf(Sel(m, {t}, g, ids));
      ghost var r := RowsUnder(m, u, t, f, g, ids);
      UnderByIds(m, u, t, f, g, ids);
      OwnerStages(m, t, u, f, g, ids);
      OwnersAreFree(m, r, t, u, f, Sel(m, {t}, g, ids));
      if owners != {} {
        LeavesAreFree(m, r);
        ok := DeleteMany(u, f, owners);
      } else {
        assert r == {};
      }
      assert m == old(m) - r;
      ok := DeleteMany(t, g, ids);
    }

    method DeleteChildLeaves(cs: set<Id>)
      modifies this
      ensures m == old(m) - Sel(old(m), CHILD_LEAVES, ChildRef, cs)
    {
      ghost var start, ts := m, {};
      ts := DeleteLeaf(STRUGGLE_TRACKERS, ChildRef, cs, start, ts);
      ts := DeleteLeaf(PUSH_TOKENS, ChildRef, cs, start, ts);
      ts := DeleteLeaf(NOTIFICATIONS, ChildRef, cs, start, ts);
      ts := DeleteLeaf(REMINDER_CONFIGS, ChildRef, cs, start, ts);
      ts := DeleteLeaf(HOMEWORK, ChildRef, cs, start, ts);
      ts := DeleteLeaf(STUDY_SESSIONS, ChildRef, cs, start, ts);
      ts := DeleteLeaf(BADGES, ChildRef, cs, start, ts);
      ts := DeleteLeaf(REWARDS, ChildRef, cs, start, ts);
      ts := DeleteLeaf(CONSENT_RECORDS, ChildRef, cs, start, ts);
      assert ts == CHILD_LEAVES;
    }

    method HardDeleteChildDependents(childId: Id) returns (ok: bool)
      requires Shaped(m)
      modifies this
      ensures ok && m == old(m) - ChildDependents(old(m), {childId})
    {
      ChildStages(m, {childId});
      ok := DeleteOwners(SUBJECT_PROGRESS, TOPIC_PROGRESS, SubjectRef, ChildRef, {childId});
      DeleteChildLeaves({childId});
      ok := DeleteOwners(CONVERSATIONS, MESSAGES, ConversationRef, ChildRef, {childId});
      var _ := DeleteLeaf(AUTH_SESSIONS, ChildRef, {childId}, m, {});
    }

    /** Clears the family's children one by one, then deletes them. */
    method DeleteChildren(f: Id) returns (ok: bool)
      requires Shaped(m)
      modifies this
      ensures ok && m == old(m) - ChildrenAndBelow(old(m), f)
    {
      ghost var start := m;
      var cs := ChildrenOf(m, f);
      var todo := cs;
      assert ChildDependents(start, {}) == {};
      while todo != {}
        invariant todo <= cs
        invariant m == start - ChildDependents(start, cs - todo)
        decreases todo
      {
        var c :| c in todo;
        OneMoreChild(start, cs - todo, c);
        assert cs - (todo - {c}) == cs - todo + {c};
        ok := HardDeleteChildDependents(c);
        todo := todo - {c};
      }
      assert cs - {} == cs;
      ChildrenLast(start, f);
      ok := DeleteMany(CHILDREN, FamilyRef, {f});
    }

    method DeleteFamilyLeaves(f: Id)
      modifies this
      ensures m == old(m) - Sel(old(m), FAMILY_LEAVES, FamilyRef, {f})
    {
      ghost var start, ts := m, {};
      ts := DeleteLeaf(NOTIFICATIONS, FamilyRef, {f}, start, ts);
      ts := DeleteLeaf(REMINDER_CONFIGS, FamilyRef, {f}, start, ts);
      ts := DeleteLeaf(HOMEWORK, FamilyRef, {f}, start, ts);
      ts := DeleteLeaf(STUDY_SESSIONS, FamilyRef, {f}, start, ts);
      ts := DeleteLeaf(BADGES, FamilyRef, {f}, start, ts);
      ts := DeleteLeaf(REWARDS, FamilyRef, {f}, start, ts);
      assert ts == FAMILY_LEAVES;
    }

    method DeleteAccountLeaves(f: Id)
      modifies this
      ensures m == old(m) - Sel(old(m), ACCOUNT_LEAVES, FamilyRef, {f})
    {
      ghost var start, ts := m, {};
      ts := DeleteLeaf(PUSH_TOKENS, FamilyRef, {f}, start, ts);
      ts := DeleteLeaf(AUTH_SESSIONS, FamilyRef, {f}, start, ts);
      ts := DeleteLeaf(INVITATIONS, FamilyRef, {f}, start, ts);
      ts := DeleteLeaf(DATA_EXPORTS, FamilyRef, {f}, start, ts);
      ts := DeleteLeaf(PAYMENT_METHODS, FamilyRef, {f}, start, ts);
      ts := DeleteLeaf(PAYMENT_INTENTS, FamilyRef, {f}, start, ts);
      assert ts == ACCOUNT_LEAVES;
    }

    /** Steps 1 to 3 of the purge, up to the subscription. */
    method DeleteFamilyRows(f: Id) returns (ok: bool)
      requires Shaped(m)
      modifies this
      ensures ok && m == old(m) - FamilyRows(old(m), f)
    {
      FirstFamilyStages(m, f);
      FamilyStages(m, f);
      ok := DeleteChildren(f);
      ok := DeleteOwners(CONVERSATIONS, MESSAGES, ConversationRef, FamilyRef, {f});
      DeleteFamilyLeaves(f);
      ok := DeleteOwners(SUBJECT_PROGRESS, TOPIC_PROGRESS, SubjectRef, FamilyRef, {f});
      DeleteAccountLeaves(f);
    }

    method EnsureRetentionFamily()
      modifies this
      ensures m == WithTombFamily(old(m))
    {
      if Key(FAMILIES, TOMBSTONE_FAMILY) !in m {
        m := m[Key(FAMILIES, TOMBSTONE_FAMILY) := Row(map[], 0, None)];
      }
    }

    /** None stands for the thrown error: no plan to hang a new tombstone subscription on. */
    method EnsureRetentionTombstone(choice: Choice) returns (sub: Option<Id>)
      requires OneSubscription(m)
      modifies this
      ensures sub.None? <==> TombSubs(old(m)) == {} && choice.planId.None?
      ensures sub.Some? ==> m == WithTombstone(old(m), choice) && sub.value == TombSubId(old(m), choice)
    {
      ghost var before := m;
      EnsureRetentionFamily();
      assert TombSubs(m) == TombSubs(before);
      if TombSubs(m) != {} {
        var k :| k in TombSubs(m);
        return Some(k.id);
      }
      if choice.planId.None? { return None; }
      m := m[Key(SUBSCRIPTIONS, choice.subId) := TombSubRow(choice)];
      return Some(choice.subId);
    }

    /** Deletes what is older than the cutoff, or everything when retention is off, and returns what
        is left. */
    method DeleteExpired(t: Table, f: Field, id: Id, days: nat, now: Time) returns (retained: set<Key>)
      requires Leaf(t)
      modifies this
      ensures m == old(m) - Expired(old(m), t, f, id, days, now)
      ensures retained == Kept(old(m), t, f, id, days, now)
    {
      ghost var before := m;
      var mine := Sel(m, {t}, f, {id});
      var cutoff := now - days * DAY_MS;
      var expired := if days <= 0 then mine else set k | k in mine && m[k].stamp < cutoff;
      LeavesAreFree(m, expired);
      var _ := DeleteRows(expired);
      assert expired == Expired(before, t, f, id, days, now);
      retained := Sel(m, {t}, f, {id});
    }

    method PurgeOrRetainInvoices(sub: Id, days: nat, now: Time, choice: Choice) returns (ok: bool)
      requires OneSubscription(m)
      modifies this
      ensures ok <==> Kept(old(m), INVOICES, SubscriptionRef, sub, days, now) == {}
                      || TombSubs(old(m)) != {} || choice.planId.Some?
      ensures ok ==> m == InvoicesSettled(old(m), sub, days, now, choice)
    {
      ghost var before := m;
      var retained := DeleteExpired(INVOICES, SubscriptionRef, sub, days, now);
      if retained == {} { return true; }
      assert TombSubs(m) == TombSubs(before);
      var tombstone := EnsureRetentionTombstone(choice);
      if tombstone.None? { return false; }
      m := Repoint(m, retained, SubscriptionRef, tombstone.value);
      return true;
    }

    method PurgeOrRetainConsent(f: Id, days: nat, now: Time)
      modifies this
      ensures m == ConsentSettled(old(m), f, days, now)
    {
      var retained := DeleteExpired(CONSENT_RECORDS, FamilyRef, f, days, now);
      if retained != {} {
        EnsureRetentionFamily();
        m := DetachAll(m, retained);
      }
    }

    /** The subscription's part of the purge. */
    method DeleteSubscription(f: Id, policy: Policy, now: Time, choice: Choice, ghost start: Db) returns (ok: bool)
      requires Schema(start) && f != TOMBSTONE_FAMILY && Allowed(start, choice)
      requires m == start - FamilyRows(start, f)
      modifies this
      ensures ok <==> !PinnedBySub(start, f)
      ensures ok ==> m == AfterSub(start, f, policy, now, choice)
    {
      var subs := Sel(m, {SUBSCRIPTIONS}, FamilyRef, {f});
      SubscriptionFound(start, f, policy, now, choice, m, subs);
      if subs == {} { return true; }
      var k :| k in subs;
      ok := PurgeOrRetainInvoices(k.id, policy.invoiceDays, now, choice);
      SubscriptionLast(start, f, policy, now, choice, k, m);
      ok := DeleteRows({k});
    }

    /** The whole delete program. False stands for a thrown constraint error, which aborts the
        surrounding transaction. */
    method PurgeFamilyGraph(f: Id, policy: Policy, now: Time, choice: Choice) returns (ok: bool)
      requires Schema(m) && f != TOMBSTONE_FAMILY && Allowed(m, choice) && Key(FAMILIES, f) in m
      modifies this
      ensures ok <==> !PinnedBySub(old(m), f) && !PinnedByParent(old(m), f)
      ensures ok ==> IsPurged(old(m), f, policy, now, choice, m)
    {
      ghost var start := m;
      ok := DeleteFamilyRows(f);
      ok := DeleteSubscription(f, policy, now, choice, start);
      if !ok { return; }
      PurgeOrRetainConsent(f, policy.consentDays, now);
      ghost var e := m;
      LastStages(start, f, policy, now, choice, e, AfterParents(e, f));
      ok := DeleteMany(PARENTS, FamilyRef, {f});
      if !ok { return; }
      ok := DeleteRows({Key(FAMILIES, f)});
    }

    // ---- marks ----

    method SoftDelete(family: Id, childId: Id, at: Time, config: Config) returns (found: bool)
      modifies this
      ensures Step(old(m), config, SoftDeleteChild(family, childId, at), m)
      ensures found <==> Unmarked(old(m), Key(CHILDREN, childId)) && Points(old(m)[Key(CHILDREN, childId)], FamilyRef, family)
      ensures found ==> Key(CHILDREN, childId) in m && m[Key(CHILDREN, childId)].mark == Some(at + RESTORE_WINDOW)
      ensures found ==> NoLiveSession(m, ChildRef, childId)
    {
      var k := Key(CHILDREN, childId);
      if k !in m || !Points(m[k], FamilyRef, family) || m[k].mark != None { return false; }
      m := Remark(m, k, Some(at + RESTORE_WINDOW));
      m := SessionsRevoked(m, ChildRef, childId, at);
      return true;
    }

    method Restore(family: Id, childId: Id, at: Time, slotFree: bool, config: Config) returns (res: RestoreResult)
      modifies this
      ensures Step(old(m), config, RestoreChild(family, childId, at, slotFree), m)
      ensures var was, k := old(m), Key(CHILDREN, childId);
              res == (if k !in was || !Points(was[k], FamilyRef, family) || was[k].mark == None then ChildNotFound
                      else if at > was[k].mark.value then WindowExpired
                      else if !slotFree then NoSlot else Restored)
      ensures res == Restored ==> Unmarked(m, Key(CHILDREN, childId))
      ensures res != Restored ==> m == old(m)
    {
      var k := Key(CHILDREN, childId);
      if k !in m || !Points(m[k], FamilyRef, family) || m[k].mark == None { return ChildNotFound; }
      if !CanRestore(m[k].mark, at) { return WindowExpired; }
      if !slotFree { return NoSlot; }
      m := Remark(m, k, None);
      return Restored;
    }

    /** Asking again does not move the deadline. */
    method RequestAccountDeletion(family: Id, at: Time, config: Config) returns (deadline: Option<Time>)
      modifies this
      ensures Step(old(m), config, RequestDeletion(family, at), m)
      ensures deadline.Some? <==> Key(FAMILIES, family) in m
      ensures deadline.Some? ==> deadline == m[Key(FAMILIES, family)].mark
      ensures Unmarked(old(m), Key(FAMILIES, family)) ==> NoLiveSession(m, FamilyRef, family)
    {
      var k := Key(FAMILIES, family);
      if k !in m { return None; }
      if m[k].mark == None {
        m := Remark(m, k, Some(at + config.accountRetainDays * DAY_MS));
        m := SessionsRevoked(m, FamilyRef, family, at);
      }
      return m[k].mark;
    }

    method CancelAccountDeletion(family: Id, at: Time, config: Config) returns (res: WindowResult)
      modifies this
      ensures Step(old(m), config, CancelDeletion(family, at), m)
      ensures res == FamilyNotFound <==> Key(FAMILIES, family) !in old(m)
      ensures res == WindowElapsed <==> Due(old(m), Key(FAMILIES, family), at)
      ensures res == NotPending <==> Unmarked(old(m), Key(FAMILIES, family))
      ensures res == Done ==> Unmarked(m, Key(FAMILIES, family))
    {
      var k := Key(FAMILIES, family);
      if k !in m { return FamilyNotFound; }
      if m[k].mark == None { return NotPending; }
      if m[k].mark.value <= at { return WindowElapsed; }
      m := Remark(m, k, None);
      return Done;
    }

    // ---- one candidate's transaction ----

    method PurgeChildTx(childId: Id, now: Time, config: Config)
      requires Shaped(m)
      modifies this
      ensures Step(old(m), config, PurgeChild(childId, now), m) && m == ChildPurged(old(m), childId, now)
    {
      if !Due(m, Key(CHILDREN, childId), now) { return; }
      ghost var start := m;
      var ok := HardDeleteChildDependents(childId);
      ChildIsFree(start, childId);
      ok := DeleteRows({Key(CHILDREN, childId)});
    }

    method PurgeSubscriptionTx(sub: Id, now: Time, config: Config) returns (ok: bool)
      requires Shaped(m)
      modifies this
      ensures ok && Step(old(m), config, PurgeSubscription(sub, now), m)
    {
      if !Due(m, Key(SUBSCRIPTIONS, sub), now) { return true; }
      ghost var start := m;
      ghost var ts := {};
      ts := DeleteLeaf(INVOICES, SubscriptionRef, {sub}, start, ts);
      ts := DeleteLeaf(PAYMENT_INTENTS, SubscriptionRef, {sub}, start, ts);
      assert ts == {INVOICES, PAYMENT_INTENTS};
      SubscriptionIsFree(start, sub);
      ok := DeleteRows({Key(SUBSCRIPTIONS, sub)});
    }

    /** False stands for the thrown error: the transaction leaves nothing behind. */
    method PurgeFamilyTx(f: Id, now: Time, config: Config, choice: Choice) returns (ok: bool)
      requires Schema(m) && Allowed(m, choice)
      requires f == TOMBSTONE_FAMILY ==> !Due(m, Key(FAMILIES, f), now)
      modifies this
      ensures Step(old(m), config, PurgeFamily(f, now, choice), m)
      ensures ok <==> !(Due(old(m), Key(FAMILIES, f), now) && (PinnedBySub(old(m), f) || PinnedByParent(old(m), f)))
    {
      if !Due(m, Key(FAMILIES, f), now) { return true; }
      var before := m;
      ok := PurgeFamilyGraph(f, config.policy, now, choice);
      if !ok { m := before; }
    }

    // ---- the sweep ----

    /** The candidates' transactions, after a scan that other steps may have followed. The list it
        returns is the scan's, skipped candidates included. */
    method PurgeCandidates(candidates: seq<Id>, now: Time, config: Config) returns (purged: seq<Id>)
      requires Shaped(m)
      modifies this
      ensures m == ChildrenSwept(old(m), candidates, now)
      ensures purged == candidates
    {
      purged := [];
      ghost var start := m;
      for i := 0 to |candidates|
        invariant Shaped(m)
        invariant ChildrenSwept(m, candidates[i..], now) == ChildrenSwept(start, candidates, now)
        invariant purged == candidates[..i]
      {
        SweepsKeepShape(m, candidates[i], now);
        assert candidates[i..][1..] == candidates[i + 1..];
        PurgeChildTx(candidates[i], now, config);
        purged := purged + [candidates[i]];
      }
    }

    /** The scan: every child that is marked and due, once. */
    method ScanDueChildren(now: Time) returns (candidates: seq<Id>)
      ensures forall c :: c in candidates <==> Due(m, Key(CHILDREN, c), now)
      ensures forall i, j :: 0 <= i < j < |candidates| ==> candidates[i] != candidates[j]
    {
      candidates := [];
      var todo := set k | k in m && k.table == CHILDREN && Due(m, k, now);
      while todo != {}
        invariant forall k :: k in todo ==> k in m && k.table == CHILDREN && Due(m, k, now) && k.id !in candidates
        invariant forall c :: Due(m, Key(CHILDREN, c), now) <==> c in candidates || Key(CHILDREN, c) in todo
        invariant forall i, j :: 0 <= i < j < |candidates| ==> candidates[i] != candidates[j]
        decreases |todo|
      {
        var k :| k in todo;
        todo := todo - {k};
        candidates := candidates + [k.id];
      }
    }

    /** A sweep nothing interrupts: the children it lists are the due ones, and they are gone; no
        other child is. */
    method PurgeDueSoftDeleted(now: Time, config: Config) returns (purged: seq<Id>)
      requires Shaped(m)
      modifies this
      ensures m == ChildrenSwept(old(m), purged, now)
      ensures forall c :: c in purged <==> Due(old(m), Key(CHILDREN, c), now)
      ensures forall c :: Key(CHILDREN, c) in m <==> Key(CHILDREN, c) in old(m) && c !in purged
    {
      ghost var start := m;
      var candidates := ScanDueChildren(now);
      purged := PurgeCandidates(candidates, now, config);
      forall c ensures Key(CHILDREN, c) in m <==> Key(CHILDREN, c) in start && c !in purged {
        SweepTakesTheDueChildren(start, candidates, now, c);
      }
    }
  }
}
