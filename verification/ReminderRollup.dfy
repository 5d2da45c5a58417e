/** The family-level reminder list and the write behind it (src/lib/reminders.ts,
    src/modules/dashboard/dashboard.service.ts).

    Rows are stored per child and type; the screen shows one entry per type. */
module ReminderRollup {
  import opened Common
  import opened ReminderCatalog

  datatype Recipient = ToChild | ToParent | ToBoth

  /** The JSON object of a reminder's settings; values are opaque. */
  type Settings = map<string, string>

  datatype Row = Row(child: Id, kind: ReminderType, enabled: bool, recipient: Recipient, settings: Option<Settings>)

  datatype Entry = Entry(kind: ReminderType, recipient: Recipient, enabled: bool, settings: Option<Settings>)

  /** The catalog's order of display. */
  const CATALOG: seq<ReminderType> := [
    DailyStudy, HomeworkDue, StreakProtection, MissedSession, WeeklySummary, StruggleAlert, ExamCountdown,
    Achievement, RewardRedeemed
  ]

  function DefaultRecipient(t: ReminderType): Recipient {
    match t
    case DailyStudy | StreakProtection => ToChild
    case HomeworkDue | ExamCountdown | Achievement => ToBoth
    case MissedSession | WeeklySummary | StruggleAlert | RewardRedeemed => ToParent
  }

  /** Whom a type addresses by default. */
  lemma DefaultAddressees(t: ReminderType)
    ensures DefaultRecipient(t) in {ToChild, ToBoth} <==> t in {DailyStudy, StreakProtection, HomeworkDue, ExamCountdown, Achievement}
    ensures DefaultRecipient(t) == ToChild <==> t in {DailyStudy, StreakProtection}
  {
  }

  // ---- the order of child ids ----

  /** Strings compare by their first differing character; a prefix comes first. */
  predicate Before(a: Id, b: Id) {
    if b == "" then false
    else if a == "" then true
    else if a[0] != b[0] then a[0] < b[0]
    else Before(a[1..], b[1..])
  }

  /** At the first place where they differ the smaller character decides, and a proper prefix comes
      first. */
  lemma {:induction false} BeforeIsDictionaryOrder(a: Id, b: Id, n: nat)
    requires n <= |a| && n <= |b| && a[..n] == b[..n]
    requires (n == |a| && n < |b|) || (n < |a| && n < |b| && a[n] < b[n])
    ensures Before(a, b)
    decreases n
  {
    if n > 0 {
      assert a[0] == a[..n][0] == b[..n][0] == b[0];
      assert a[1..][..n - 1] == a[..n][1..] && b[1..][..n - 1] == b[..n][1..];
      BeforeIsDictionaryOrder(a[1..], b[1..], n - 1);
    }
  }

  lemma {:induction false} BeforeIsTotal(a: Id, b: Id)
    ensures Before(a, b) || Before(b, a) || a == b
    ensures !(Before(a, b) && Before(b, a)) && (Before(a, b) ==> a != b)
    decreases |a|
  {
    if a != "" && b != "" {
      BeforeIsTotal(a[1..], b[1..]);
      assert a == [a[0]] + a[1..] && b == [b[0]] + b[1..];
    }
  }

  lemma {:induction false} BeforeIsTransitive(a: Id, b: Id, c: Id)
    requires Before(a, b) && Before(b, c)
    ensures Before(a, c)
    decreases |a|
  {
    if a != "" && a[0] == b[0] == c[0] {
      BeforeIsTransitive(a[1..], b[1..], c[1..]);
    }
  }

  /** Among child ids one comes first. */
  lemma {:induction false} LowestOf(cs: set<Id>) returns (c: Id)
    requires cs != {}
    ensures c in cs && forall d :: d in cs && d != c ==> Before(c, d)
    decreases |cs|
  {
    c :| c in cs;
    var rest := cs - {c};
    if rest != {} {
      var d := LowestOf(rest);
      BeforeIsTotal(c, d);
      if Before(c, d) {
        forall x | x in rest && x != d ensures Before(c, x) { BeforeIsTransitive(c, d, x); }
      } else {
        c := d;
      }
    }
  }

  // ---- the roll-up ----

  function OfKind(rows: seq<Row>, t: ReminderType): (r: seq<Row>)
    ensures forall x :: x in r <==> x in rows && x.kind == t
  {
    if rows == [] then []
    else
      var last := rows[|rows| - 1];
      OfKind(rows[..|rows| - 1], t) + if last.kind == t then [last] else []
  }

  /** The reduce that keeps the row with the lowest child id. */
  function Representative(rows: seq<Row>): Option<Row> {
    if rows == [] then None
    else
      var best, row := Representative(rows[..|rows| - 1]), rows[|rows| - 1];
      if best.None? || Before(row.child, best.value.child) then Some(row) else best
  }

  function EntryOf(rows: seq<Row>, t: ReminderType): Entry {
    var mine := OfKind(rows, t);
    var rep := Representative(mine);
    Entry(t, if rep.Some? then rep.value.recipient else DefaultRecipient(t),
          exists r :: r in mine && r.enabled,
          if rep.Some? then rep.value.settings else None)
  }

  function EntriesFor(catalog: seq<ReminderType>, rows: seq<Row>): seq<Entry> {
    seq(|catalog|, i requires 0 <= i < |catalog| => EntryOf(rows, catalog[i]))
  }

  function Merged(rows: seq<Row>): seq<Entry> {
    EntriesFor(CATALOG, rows)
  }

  // ---- what the roll-up means ----

  /** The row of the type with the lowest child id. */
  ghost predicate IsLowest(rows: seq<Row>, t: ReminderType, r: Row) {
    && r in rows && r.kind == t
    && forall x :: x in rows && x.kind == t && x.child != r.child ==> Before(r.child, x.child)
  }

  /** An entry read off the rows as a set: no mention of their order. */
  ghost predicate Summarises(rows: seq<Row>, t: ReminderType, e: Entry) {
    && e.kind == t
    && (e.enabled <==> exists r :: r in rows && r.kind == t && r.enabled)
    && ((forall r :: r in rows ==> r.kind != t) ==> e.recipient == DefaultRecipient(t) && e.settings == None)
    && (forall r :: IsLowest(rows, t, r) ==> e.recipient == r.recipient && e.settings == r.settings)
    && ((exists r :: r in rows && r.kind == t) ==> exists r :: IsLowest(rows, t, r))
  }

  /** Each child has at most one row of each type. */
  predicate UniqueRows(rows: seq<Row>) {
    forall i, j :: 0 <= i < |rows| && 0 <= j < |rows| && rows[i].child == rows[j].child && rows[i].kind == rows[j].kind
      ==> rows[i] == rows[j]
  }

  lemma LowestSoFar(prefix: seq<Row>, row: Row, best: Row)
    requires best in prefix && forall x :: x in prefix && x.child != best.child ==> Before(best.child, x.child)
    ensures var r := if Before(row.child, best.child) then row else best;
            forall x :: x in prefix + [row] && x.child != r.child ==> Before(r.child, x.child)
  {
    BeforeIsTotal(row.child, best.child);
    forall x | x in prefix + [row] && x.child != (if Before(row.child, best.child) then row else best).child
      ensures Before((if Before(row.child, best.child) then row else best).child, x.child)
    {
      BeforeIsTotal(best.child, x.child);
      if Before(row.child, best.child) && x.child != best.child {
        BeforeIsTransitive(row.child, best.child, x.child);
      }
    }
  }

  lemma {:induction false} RepresentativeIsLowest(rows: seq<Row>)
    ensures Representative(rows).None? <==> rows == []
    ensures rows != [] ==>
      var r := Representative(rows).value;
      r in rows && forall x :: x in rows && x.child != r.child ==> Before(r.child, x.child)
    decreases |rows|
  {
    if rows != [] {
      var prefix, row := rows[..|rows| - 1], rows[|rows| - 1];
      RepresentativeIsLowest(prefix);
      assert rows == prefix + [row];
      if prefix != [] {
        LowestSoFar(prefix, row, Representative(prefix).value);
      }
    }
  }

  lemma LowestIsUnique(rows: seq<Row>, t: ReminderType, a: Row, b: Row)
    requires UniqueRows(rows) && IsLowest(rows, t, a) && IsLowest(rows, t, b)
    ensures a == b
  {
    BeforeIsTotal(a.child, b.child);
    assert a.child == b.child;
  }

  /** The entry of a type is its summary. */
  lemma EntrySummarises(rows: seq<Row>, t: ReminderType)
    requires UniqueRows(rows)
    ensures Summarises(rows, t, EntryOf(rows, t))
  {
    var mine := OfKind(rows, t);
    RepresentativeIsLowest(mine);
    if mine != [] {
      var rep := Representative(mine).value;
      assert IsLowest(rows, t, rep);
      forall r | IsLowest(rows, t, r) ensures r == rep {
        LowestIsUnique(rows, t, r, rep);
      }
    }
    forall r | r in rows && r.kind == t ensures r in mine {}
  }

  /** A summary is determined by the rows as a set. */
  lemma SummaryIsUnique(rows: seq<Row>, others: seq<Row>, t: ReminderType, e: Entry, e': Entry)
    requires forall r :: r in rows <==> r in others
    requires Summarises(rows, t, e) && Summarises(others, t, e')
    ensures e == e'
  {
    forall r ensures IsLowest(rows, t, r) <==> IsLowest(others, t, r) {}
    if exists r :: r in rows && r.kind == t {
      var r :| IsLowest(rows, t, r);
      assert IsLowest(others, t, r);
    }
  }

  /** The list does not depend on the order in which the database returns the rows. */
  lemma MergeIgnoresOrder(rows: seq<Row>, others: seq<Row>)
    requires UniqueRows(rows) && multiset(rows) == multiset(others)
    ensures Merged(rows) == Merged(others)
  {
    forall r ensures r in rows <==> r in others {
      assert r in rows <==> r in multiset(rows);
    }
    forall t ensures EntryOf(rows, t) == EntryOf(others, t) {
      EntrySummarises(rows, t);
      EntrySummarises(others, t);
      SummaryIsUnique(rows, others, t, EntryOf(rows, t), EntryOf(others, t));
    }
  }

  // ---- the tables ----

  datatype Child = Child(family: Id, deleted: bool)

  datatype ConfigKey = ConfigKey(child: Id, kind: ReminderType)

  datatype Config = Config(family: Id, enabled: bool, recipient: Recipient, settings: Option<Settings>)

  datatype Db = Db(children: map<Id, Child>, configs: map<ConfigKey, Config>)

  /** A child's rows carry the child's family. */
  ghost predicate Coherent(db: Db) {
    forall k :: k in db.configs && k.child in db.children ==> db.configs[k].family == db.children[k.child].family
  }

  function RowAt(k: ConfigKey, c: Config): Row {
    Row(k.child, k.kind, c.enabled, c.recipient, c.settings)
  }

  ghost predicate InFamily(db: Db, f: Id, r: Row) {
    var k := ConfigKey(r.child, r.kind);
    k in db.configs && db.configs[k].family == f && r == RowAt(k, db.configs[k])
  }

  /** The rows a query for a family returns, in whatever order. */
  ghost predicate Lists(rows: seq<Row>, db: Db, f: Id) {
    && (forall r :: r in rows <==> InFamily(db, f, r))
    && UniqueRows(rows)
  }

  // ---- the write ----

  datatype Update = Update(enabled: Option<bool>, settings: Option<Settings>)

  function LiveChildren(db: Db, f: Id): set<Id> {
    set c | c in db.children && db.children[c].family == f && !db.children[c].deleted
  }

  function SettingsAt(db: Db, c: Id, t: ReminderType): Settings {
    var k := ConfigKey(c, t);
    if k in db.configs && db.configs[k].settings.Some? then db.configs[k].settings.value else map[]
  }

  /** What the upsert leaves in a live child's row. */
  function Upserted(db: Db, f: Id, c: Id, t: ReminderType, u: Update): Config {
    var k := ConfigKey(c, t);
    var merged := if u.settings.Some? then Some(SettingsAt(db, c, t) + u.settings.value) else None;
    if k in db.configs then
      var row := db.configs[k];
      Config(row.family, if u.enabled.Some? then u.enabled.value else row.enabled, row.recipient,
             if merged.Some? then merged else row.settings)
    else Config(f, u.enabled.Some? && u.enabled.value, DefaultRecipient(t), merged)
  }

  function KeysFor(cs: set<Id>, t: ReminderType): set<ConfigKey> {
    set c | c in cs :: ConfigKey(c, t)
  }

  /** The rows after the children in `cs` were written. */
  function Written(db: Db, f: Id, cs: set<Id>, t: ReminderType, u: Update): Db {
    db.(configs := map k | k in db.configs.Keys + KeysFor(cs, t) ::
          if k.kind == t && k.child in cs then Upserted(db, f, k.child, t, u) else db.configs[k])
  }

  function Updated(db: Db, f: Id, t: ReminderType, u: Update): Db {
    Written(db, f, LiveChildren(db, f), t, u)
  }

  // ---- reading back what was written ----

  /** A row of the family whose child is not one of its live children. */
  ghost predicate Stale(db: Db, f: Id, k: ConfigKey) {
    k in db.configs && db.configs[k].family == f && k.child !in LiveChildren(db, f)
  }

  ghost predicate StaleEnabled(db: Db, f: Id, t: ReminderType) {
    exists k :: Stale(db, f, k) && k.kind == t && db.configs[k].enabled
  }

  /** The family's rows after the write: its live children's, and the stale ones as they were. */
  lemma RowsAfterUpdate(db: Db, f: Id, t: ReminderType, u: Update, r: Row)
    requires Coherent(db)
    ensures var k := ConfigKey(r.child, r.kind);
            InFamily(Updated(db, f, t, u), f, r) <==>
              if r.kind == t && r.child in LiveChildren(db, f) then r == RowAt(k, Upserted(db, f, r.child, t, u))
              else InFamily(db, f, r)
  {
  }

  /** What the write does to a row: a live child's row of the type gets the switch if one is given and
      the given keys of the settings, and keeps everything else; a missing one is created, off unless
      switched on, for the type's default recipient; every other row stays. */
  lemma WriteOverridesOnlyWhatIsGiven(db: Db, f: Id, t: ReminderType, u: Update, k: ConfigKey)
    ensures var after, written := Updated(db, f, t, u).configs,
                                  k.kind == t && k.child in db.children && db.children[k.child] == Child(f, false);
            && Updated(db, f, t, u).children == db.children
            && (!written ==> (k in after <==> k in db.configs) && (k in after ==> after[k] == db.configs[k]))
            && (written ==>
                  && k in after
                  && var was := if k in db.configs then db.configs[k] else Config(f, false, DefaultRecipient(t), None);
                     && after[k].family == was.family && after[k].recipient == was.recipient
                     && after[k].enabled == (if u.enabled == None then was.enabled else u.enabled == Some(true))
                     && (u.settings == None ==> after[k].settings == was.settings)
                     && (u.settings != None ==>
                           && after[k].settings != None
                           && forall key ::
                                (key in after[k].settings.value <==>
                                   key in u.settings.value || (was.settings.Some? && key in was.settings.value))
                                && (key in u.settings.value ==> after[k].settings.value[key] == u.settings.value[key])
                                && (key !in u.settings.value && was.settings.Some? && key in was.settings.value ==>
                                      after[k].settings.value[key] == was.settings.value[key])))
  {
    var c := k.child;
    assert c in LiveChildren(db, f) <==> c in db.children && db.children[c] == Child(f, false);
    assert k in KeysFor(LiveChildren(db, f), t) <==> k.kind == t && c in LiveChildren(db, f);
  }

  /** The write keeps rows with their child's family. */
  lemma UpdateKeepsCoherent(db: Db, f: Id, t: ReminderType, u: Update)
    requires Coherent(db)
    ensures Coherent(Updated(db, f, t, u))
  {
  }

  /** The switch reads back as it was set, exactly when: switched on, there is a live child or a
      stale row was on already; switched off, no stale row is on. */
  lemma EnabledReadsBackIff(db: Db, f: Id, t: ReminderType, u: Update, rows: seq<Row>)
    requires Coherent(db) && u.enabled.Some? && Lists(rows, Updated(db, f, t, u), f)
    ensures EntryOf(rows, t).enabled == u.enabled.value <==>
              if u.enabled.value then LiveChildren(db, f) != {} || StaleEnabled(db, f, t) else !StaleEnabled(db, f, t)
  {
    EntrySummarises(rows, t);
    if LiveChildren(db, f) != {} {
      var c :| c in LiveChildren(db, f);
      var r := RowAt(ConfigKey(c, t), Upserted(db, f, c, t, u));
      RowsAfterUpdate(db, f, t, u, r);
      assert r in rows;
    }
    if StaleEnabled(db, f, t) {
      var k :| Stale(db, f, k) && k.kind == t && db.configs[k].enabled;
      RowsAfterUpdate(db, f, t, u, RowAt(k, db.configs[k]));
      assert RowAt(k, db.configs[k]) in rows;
    }
    forall r | r in rows && r.kind == t && r.enabled
      ensures (r.child in LiveChildren(db, f) && u.enabled.value) || StaleEnabled(db, f, t)
    {
      RowsAfterUpdate(db, f, t, u, r);
      assert r.child !in LiveChildren(db, f) ==> Stale(db, f, ConfigKey(r.child, t));
    }
  }

  /** The live child whose row the list shows. */
  ghost predicate LowestLive(db: Db, f: Id, c: Id) {
    c in LiveChildren(db, f) && forall d :: d in LiveChildren(db, f) && d != c ==> Before(c, d)
  }

  /** A family with a live child has a lowest one. */
  lemma LowestLiveExists(db: Db, f: Id)
    requires LiveChildren(db, f) != {}
    ensures exists c :: LowestLive(db, f, c)
  {
    var c := LowestOf(LiveChildren(db, f));
    assert LowestLive(db, f, c);
  }

  /** Every stale row of the type sorts after the child. */
  ghost predicate NoStaleBelow(db: Db, f: Id, t: ReminderType, c: Id) {
    forall k :: Stale(db, f, k) && k.kind == t ==> Before(c, k.child)
  }

  /** What the write leaves in the lowest live child's row. */
  function WrittenRow(db: Db, f: Id, t: ReminderType, u: Update, c: Id): Row {
    RowAt(ConfigKey(c, t), Upserted(db, f, c, t, u))
  }

  /** The list shows the row that was written for the lowest live child exactly when no stale row
      of the type sorts below that child. */
  lemma WriteIsShownIff(db: Db, f: Id, t: ReminderType, u: Update, rows: seq<Row>, c: Id)
    requires Coherent(db) && Lists(rows, Updated(db, f, t, u), f) && LowestLive(db, f, c)
    ensures IsLowest(rows, t, WrittenRow(db, f, t, u, c)) <==> NoStaleBelow(db, f, t, c)
  {
    var r := WrittenRow(db, f, t, u, c);
    RowsAfterUpdate(db, f, t, u, r);
    if NoStaleBelow(db, f, t, c) {
      forall x | x in rows && x.kind == t && x.child != c ensures Before(c, x.child) {
        RowsAfterUpdate(db, f, t, u, x);
        assert x.child !in LiveChildren(db, f) ==> Stale(db, f, ConfigKey(x.child, t));
      }
    } else {
      var k :| Stale(db, f, k) && k.kind == t && !Before(c, k.child);
      RowsAfterUpdate(db, f, t, u, RowAt(k, db.configs[k]));
      assert RowAt(k, db.configs[k]) in rows;
    }
  }

  /** With no stale row of the type below the lowest live child, the list shows that child's
      settings with the given keys overridden, and its recipient. */
  lemma SettingsReadBack(db: Db, f: Id, t: ReminderType, u: Update, rows: seq<Row>, c: Id)
    requires Coherent(db) && u.settings.Some? && Lists(rows, Updated(db, f, t, u), f)
    requires LowestLive(db, f, c) && NoStaleBelow(db, f, t, c)
    ensures EntryOf(rows, t).settings == Some(SettingsAt(db, c, t) + u.settings.value)
    ensures EntryOf(rows, t).recipient ==
              if ConfigKey(c, t) in db.configs then db.configs[ConfigKey(c, t)].recipient else DefaultRecipient(t)
  {
    EntrySummarises(rows, t);
    WriteIsShownIff(db, f, t, u, rows, c);
  }

  /** The lowest stale row of a type. */
  ghost predicate LowestStale(db: Db, f: Id, t: ReminderType, k: ConfigKey) {
    && Stale(db, f, k) && k.kind == t
    && forall j :: Stale(db, f, j) && j.kind == t && j != k ==> Before(k.child, j.child)
  }

  /** A stale row below every live child hides the write: the list keeps showing that row. */
  lemma StaleRowHidesSettings(db: Db, f: Id, t: ReminderType, u: Update, rows: seq<Row>, k: ConfigKey)
    requires Coherent(db) && Lists(rows, Updated(db, f, t, u), f)
    requires LowestStale(db, f, t, k) && forall c :: c in LiveChildren(db, f) ==> Before(k.child, c)
    ensures EntryOf(rows, t).settings == db.configs[k].settings && EntryOf(rows, t).recipient == db.configs[k].recipient
  {
    EntrySummarises(rows, t);
    var r := RowAt(k, db.configs[k]);
    RowsAfterUpdate(db, f, t, u, r);
    forall x | x in rows && x.kind == t && x.child != k.child ensures Before(k.child, x.child) {
      RowsAfterUpdate(db, f, t, u, x);
      assert x.child !in LiveChildren(db, f) ==> Stale(db, f, ConfigKey(x.child, t));
    }
    assert IsLowest(rows, t, r);
  }

  /** The lowest stale child comes before every live one when some stale child does not come after
      the lowest live one. */
  lemma BelowLive(c: Id, j: Id, k: Id, x: Id)
    requires c != j && !Before(c, j) && (k == j || Before(k, j)) && (x == c || Before(c, x))
    ensures Before(k, x)
  {
    BeforeIsTotal(c, j);
    if k != j { BeforeIsTransitive(k, j, c); }
    if x != c { BeforeIsTransitive(k, c, x); }
  }

  lemma LowestStaleOf(db: Db, f: Id, t: ReminderType, j: ConfigKey) returns (k: ConfigKey)
    requires Stale(db, f, j) && j.kind == t
    ensures LowestStale(db, f, t, k) && (k == j || Before(k.child, j.child))
  {
    var cs := set x | x in db.configs && Stale(db, f, x) && x.kind == t :: x.child;
    assert j.child in cs;
    var c := LowestOf(cs);
    k := ConfigKey(c, t);
    assert forall x :: Stale(db, f, x) && x.kind == t ==> x.child in cs;
    assert forall x :: x in cs ==> Stale(db, f, ConfigKey(x, t));
  }

  /** Whatever stale rows there are, the settings shown are those written for the lowest live child
      when no stale row of the type sorts below it, and those of the lowest stale row otherwise. */
  lemma SettingsShown(db: Db, f: Id, t: ReminderType, u: Update, rows: seq<Row>, c: Id)
    requires Coherent(db) && u.settings.Some? && Lists(rows, Updated(db, f, t, u), f) && LowestLive(db, f, c)
    ensures NoStaleBelow(db, f, t, c) ==> EntryOf(rows, t).settings == Some(SettingsAt(db, c, t) + u.settings.value)
    ensures !NoStaleBelow(db, f, t, c) ==>
              exists k :: LowestStale(db, f, t, k) && EntryOf(rows, t).settings == db.configs[k].settings
  {
    if NoStaleBelow(db, f, t, c) {
      SettingsReadBack(db, f, t, u, rows, c);
    } else {
      var j :| Stale(db, f, j) && j.kind == t && !Before(c, j.child);
      var k := LowestStaleOf(db, f, t, j);
      forall x | x in LiveChildren(db, f) ensures Before(k.child, x) {
        BelowLive(c, j.child, k.child, x);
      }
      StaleRowHidesSettings(db, f, t, u, rows, k);
    }
  }

  lemma WriteNone(db: Db, f: Id, t: ReminderType, u: Update)
    ensures forall cs: set<Id> :: cs == {} ==> Written(db, f, cs, t, u) == db
  {
    assert KeysFor({}, t) == {};
    assert Written(db, f, {}, t, u).configs == db.configs;
  }

  /** Whatever the family: without a live child nothing is written, and otherwise the list shows
      one of the two. */
  lemma WriteIsShownOrHidden(db: Db, f: Id, t: ReminderType, u: Update, rows: seq<Row>)
    requires Coherent(db) && u.settings.Some? && Lists(rows, Updated(db, f, t, u), f)
    ensures LiveChildren(db, f) == {} ==> Updated(db, f, t, u) == db
    ensures LiveChildren(db, f) != {} ==>
              exists c :: LowestLive(db, f, c)
                && if NoStaleBelow(db, f, t, c) then EntryOf(rows, t).settings == Some(SettingsAt(db, c, t) + u.settings.value)
                   else exists k :: LowestStale(db, f, t, k) && EntryOf(rows, t).settings == db.configs[k].settings
  {
    if LiveChildren(db, f) == {} {
      WriteNone(db, f, t, u);
    } else {
      LowestLiveExists(db, f);
      var c :| LowestLive(db, f, c);
      SettingsShown(db, f, t, u, rows, c);
    }
  }

  lemma OtherRowsStay(db: Db, f: Id, t: ReminderType, u: Update, g: Id, r: Row)
    requires Coherent(db) && (r.kind != t || g != f)
    ensures InFamily(db, g, r) <==> InFamily(Updated(db, f, t, u), g, r)
  {
  }

  lemma SameOfKind(rows: seq<Row>, others: seq<Row>, t: ReminderType, e: Entry, e': Entry)
    requires forall r: Row :: r.kind == t ==> (r in rows <==> r in others)
    requires Summarises(rows, t, e) && Summarises(others, t, e')
    ensures e == e'
  {
    forall r ensures IsLowest(rows, t, r) <==> IsLowest(others, t, r) {}
    if exists r :: r in rows && r.kind == t {
      var r :| IsLowest(rows, t, r);
      assert IsLowest(others, t, r);
    }
  }

  /** Other types read as before, and so do other families' lists. */
  lemma OtherEntriesUnchanged(db: Db, f: Id, t: ReminderType, u: Update, g: Id, s: ReminderType,
                              before: seq<Row>, after: seq<Row>)
    requires Coherent(db) && (s != t || g != f)
    requires Lists(before, db, g) && Lists(after, Updated(db, f, t, u), g)
    ensures EntryOf(after, s) == EntryOf(before, s)
  {
    EntrySummarises(before, s);
    EntrySummarises(after, s);
    forall r: Row | r.kind == s ensures r in before <==> r in after {
      OtherRowsStay(db, f, t, u, g, r);
    }
    SameOfKind(before, after, s, EntryOf(before, s), EntryOf(after, s));
  }

  lemma UpsertTwice(db: Db, once: Db, f: Id, c: Id, t: ReminderType, u: Update)
    requires ConfigKey(c, t) in once.configs && once.configs[ConfigKey(c, t)] == Upserted(db, f, c, t, u)
    ensures Upserted(once, f, c, t, u) == once.configs[ConfigKey(c, t)]
  {
    if u.settings.Some? {
      var s := SettingsAt(db, c, t) + u.settings.value;
      assert s + u.settings.value == s;
    }
  }

  /** Writing the same change again changes nothing. */
  lemma UpdateTwice(db: Db, f: Id, t: ReminderType, u: Update)
    ensures Updated(Updated(db, f, t, u), f, t, u) == Updated(db, f, t, u)
  {
    var once := Updated(db, f, t, u);
    var cs := LiveChildren(db, f);
    assert LiveChildren(once, f) == cs;
    forall c | c in cs
      ensures ConfigKey(c, t) in once.configs && Upserted(once, f, c, t, u) == once.configs[ConfigKey(c, t)]
    {
      assert ConfigKey(c, t) in KeysFor(cs, t);
      UpsertTwice(db, once, f, c, t, u);
    }
    assert Written(once, f, cs, t, u).configs == once.configs;
  }

  // ---- the service ----

  /** The catalog entry a slug names. */
  function FindSlug(catalog: seq<ReminderType>, slug: string): (t: Option<ReminderType>)
    ensures t.Some? ==> t.value in catalog && SlugOf(t.value) == slug
    ensures t.None? ==> forall x :: x in catalog ==> SlugOf(x) != slug
  {
    if catalog == [] then None
    else if SlugOf(catalog[0]) == slug then Some(catalog[0])
    else FindSlug(catalog[1..], slug)
  }

  /** Writing the children one by one. */
  lemma WriteOneMore(db: Db, f: Id, done: set<Id>, c: Id, t: ReminderType, u: Update)
    requires c !in done
    ensures var before := Written(db, f, done, t, u);
            Written(db, f, done + {c}, t, u)
              == before.(configs := before.configs[ConfigKey(c, t) := Upserted(before, f, c, t, u)])
  {
    var before := Written(db, f, done, t, u);
    var k := ConfigKey(c, t);
    assert KeysFor(done + {c}, t) == KeysFor(done, t) + {k};
    assert k in before.configs <==> k in db.configs;
    assert Upserted(before, f, c, t, u) == Upserted(db, f, c, t, u);
    assert Written(db, f, done + {c}, t, u).configs == before.configs[k := Upserted(before, f, c, t, u)];
  }

  class ReminderService {
    var children: map<Id, Child>
    var configs: map<ConfigKey, Config>

    ghost function State(): Db
      reads this
    {
      Db(children, configs)
    }

    /** Groups the rows by type, then reduces each group to its entry. */
    static method MergeFamilyReminderConfigs(rows: seq<Row>) returns (entries: seq<Entry>)
      ensures entries == Merged(rows)
    {
      var byType := GroupByType(rows);
      entries := SummariseTypes(CATALOG, byType, rows);
    }

    static method GroupByType(rows: seq<Row>) returns (byType: map<ReminderType, seq<Row>>)
      ensures forall t :: if t in byType then byType[t] == OfKind(rows, t) else OfKind(rows, t) == []
    {
      byType := map[];
      for i := 0 to |rows|
        invariant forall t :: if t in byType then byType[t] == OfKind(rows[..i], t) else OfKind(rows[..i], t) == []
      {
        var row := rows[i];
        assert rows[..i + 1][..i] == rows[..i];
        if row.kind in byType {
          byType := byType[row.kind := byType[row.kind] + [row]];
        } else {
          byType := byType[row.kind := [row]];
        }
      }
      assert rows[..|rows|] == rows;
    }

    static method SummariseTypes(catalog: seq<ReminderType>, byType: map<ReminderType, seq<Row>>, ghost rows: seq<Row>)
      returns (entries: seq<Entry>)
      requires forall t :: if t in byType then byType[t] == OfKind(rows, t) else OfKind(rows, t) == []
      ensures entries == EntriesFor(catalog, rows)
    {
      entries := [];
      for n := 0 to |catalog|
        invariant |entries| == n && forall j :: 0 <= j < n ==> entries[j] == EntryOf(rows, catalog[j])
      {
        var entry := SummariseType(if catalog[n] in byType then byType[catalog[n]] else [], catalog[n], rows);
        entries := entries + [entry];
      }
    }

    static method SummariseType(mine: seq<Row>, t: ReminderType, ghost rows: seq<Row>) returns (entry: Entry)
      requires mine == OfKind(rows, t)
      ensures entry == EntryOf(rows, t)
    {
      var enabled := AnyEnabled(mine);
      var representative := Reduce(mine);
      entry := Entry(t, if representative.Some? then representative.value.recipient else DefaultRecipient(t), enabled,
                     if representative.Some? then representative.value.settings else None);
    }

    static method AnyEnabled(mine: seq<Row>) returns (enabled: bool)
      ensures enabled <==> exists r :: r in mine && r.enabled
    {
      for i := 0 to |mine|
        invariant forall r :: r in mine[..i] ==> !r.enabled
      {
        if mine[i].enabled { return true; }
      }
      return false;
    }

    /** Keeps the row with the lowest child id. */
    static method Reduce(mine: seq<Row>) returns (best: Option<Row>)
      ensures best == Representative(mine)
    {
      best := None;
      for i := 0 to |mine|
        invariant best == Representative(mine[..i])
      {
        assert mine[..i + 1][..i] == mine[..i];
        if best.None? || Before(mine[i].child, best.value.child) {
          best := Some(mine[i]);
        }
      }
      assert mine[..|mine|] == mine;
    }

    /** The query, in whatever order. */
    method FindRows(f: Id) returns (rows: seq<Row>)
      ensures Lists(rows, State(), f)
    {
      rows := [];
      var todo := set k | k in configs && configs[k].family == f;
      while todo != {}
        invariant forall k :: k in todo ==> k in configs && configs[k].family == f
        invariant forall r :: r in rows <==> InFamily(State(), f, r) && ConfigKey(r.child, r.kind) !in todo
        invariant UniqueRows(rows)
        decreases |todo|
      {
        var k :| k in todo;
        todo := todo - {k};
        rows := rows + [RowAt(k, configs[k])];
      }
    }

    method GetReminderConfig(f: Id) returns (entries: seq<Entry>)
      ensures exists rows :: Lists(rows, State(), f) && entries == Merged(rows)
    {
      var rows := FindRows(f);
      entries := MergeFamilyReminderConfigs(rows);
    }

    /** None stands for the 404 of an unknown slug. */
    method UpdateReminder(f: Id, slug: string, u: Update) returns (entries: Option<seq<Entry>>)
      modifies this`configs
      ensures entries.None? <==> FindSlug(CATALOG, slug).None?
      ensures entries.None? ==> State() == old(State())
      ensures entries.Some? ==>
                && State() == Updated(old(State()), f, FindSlug(CATALOG, slug).value, u)
                && exists rows :: Lists(rows, State(), f) && entries.value == Merged(rows)
    {
      var t := FindSlug(CATALOG, slug);
      if t.None? { return None; }
      WriteReminder(f, t.value, u);
      var list := GetReminderConfig(f);
      return Some(list);
    }

    /** One upsert for each live child. */
    method WriteReminder(f: Id, t: ReminderType, u: Update)
      modifies this`configs
      ensures State() == Updated(old(State()), f, t, u)
    {
      ghost var start := State();
      var cs := set c | c in children && children[c].family == f && !children[c].deleted;
      assert cs == LiveChildren(start, f);
      var todo := cs;
      WriteNone(start, f, t, u);
      while todo != {}
        invariant todo <= cs && State() == Written(start, f, cs - todo, t, u)
        decreases |todo|
      {
        var c :| c in todo;
        WriteOneMore(start, f, cs - todo, c, t, u);
        assert cs - (todo - {c}) == cs - todo + {c};
        UpsertRow(f, c, t, u);
        todo := todo - {c};
      }
      assert cs - {} == cs;
    }

    method UpsertRow(f: Id, c: Id, t: ReminderType, u: Update)
      modifies this`configs
      ensures configs == old(configs)[ConfigKey(c, t) := Upserted(old(State()), f, c, t, u)]
    {
      var k := ConfigKey(c, t);
      var existing := if k in configs && configs[k].settings.Some? then configs[k].settings.value else map[];
      var merged := if u.settings.Some? then Some(existing + u.settings.value) else None;
      if k in configs {
        var row := configs[k];
        if u.enabled.Some? { row := row.(enabled := u.enabled.value); }
        if merged.Some? { row := row.(settings := merged); }
        configs := configs[k := row];
      } else {
        configs := configs[k := Config(f, u.enabled.Some? && u.enabled.value, DefaultRecipient(t), merged)];
      }
    }
  }
}
