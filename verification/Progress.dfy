/** Progress and struggle derivation from session events (src/modules/progress/progress.service.ts).

    A subject row is identified by its child and subject, a topic row by its subject row and name,
    a tracker by its child and topic. */
module Progress {
  import opened Common

  datatype Trend = Up | Down | Flat

  datatype Outcome = Started | Completed | Abandoned

  datatype Child = Child(
    family: Id, totalXp: nat, level: nat, levelXp: nat, nextLevel: nat, totalMinutes: nat, minutesThisWeek: nat)

  datatype Subject = Subject(mastery: int, trend: Trend, lastStudiedAt: Time, history: seq<int>)

  datatype Topic = Topic(mastery: int, struggling: bool)

  datatype Tracker = Tracker(count: nat, lastAlertedAt: Option<Time>)

  datatype SubjectKey = SubjectKey(child: Id, subject: string)

  datatype TopicKey = TopicKey(child: Id, subject: string, name: string)

  datatype TrackerKey = TrackerKey(child: Id, topic: string)

  datatype Store = Store(
    children: map<Id, Child>, subjects: map<SubjectKey, Subject>,
    topics: map<TopicKey, Topic>, trackers: map<TrackerKey, Tracker>)

  datatype Event = Event(
    id: Id, family: Id, child: Id, subject: string, topics: seq<string>, mastery: map<string, int>,
    minutes: nat, xp: nat, outcome: Outcome, homeworkRef: Option<Id>, occurredAt: Time)

  /** A struggle alert for the parent. */
  datatype Alert = Alert(family: Id, child: Id, topic: string, at: Time)

  /** STRUGGLE_MASTERY_THRESHOLD and STRUGGLE_CONSECUTIVE_THRESHOLD. */
  datatype Config = Config(masteryBelow: int, consecutive: nat)

  datatype Derived = Derived(store: Store, alerts: seq<Alert>)

  const LEVEL_XP_SPAN: nat := 1000

  const HISTORY_LENGTH: nat := 12

  // ---- the child's snapshot ----

  /** The snapshot after earning `xp` over `minutes`. */
  function Credited(c: Child, xp: nat, minutes: nat): Child {
    var level := c.level + (c.levelXp + xp) / LEVEL_XP_SPAN;
    c.(totalXp := c.totalXp + xp, level := level, levelXp := (c.levelXp + xp) % LEVEL_XP_SPAN, nextLevel := level + 1,
       totalMinutes := c.totalMinutes + minutes, minutesThisWeek := c.minutesThisWeek + minutes)
  }

  // ---- subjects ----

  function SumMastery(e: Event, n: nat): int
    requires n <= |e.topics|
  {
    if n == 0 then 0
    else SumMastery(e, n - 1) + if e.topics[n - 1] in e.mastery then e.mastery[e.topics[n - 1]] else 0
  }

  /** A touched topic without a reported mastery counts as zero. */
  function AverageMastery(e: Event): int {
    if e.topics == [] then 0 else RoundDiv(SumMastery(e, |e.topics|), |e.topics|)
  }

  function TrendFor(history: seq<int>, latest: int): Trend {
    var prev := if history == [] then latest else history[|history| - 1];
    if latest > prev then Up else if latest < prev then Down else Flat
  }

  function LastOf(s: seq<int>, n: nat): seq<int> {
    if |s| <= n then s else s[|s| - n..]
  }

  function StudiedSubject(existing: Option<Subject>, mastery: int, at: Time): Subject {
    if existing.Some? then
      var history := existing.value.history;
      Subject(mastery, TrendFor(history, mastery), at, LastOf(history + [mastery], HISTORY_LENGTH))
    else Subject(mastery, Flat, at, [mastery])
  }

  function Lookup<K(==), V>(m: map<K, V>, k: K): Option<V> {
    if k in m then Some(m[k]) else None
  }

  // ---- topics and struggle ----

  predicate Low(cfg: Config, mastery: int) {
    mastery < cfg.masteryBelow
  }

  function TrackerOf(p: Store, k: TrackerKey): Tracker {
    if k in p.trackers then p.trackers[k] else Tracker(0, None)
  }

  function NextCount(cfg: Config, t: Tracker, mastery: int): nat {
    if Low(cfg, mastery) then t.count + 1 else 0
  }

  /** At or over the threshold. */
  predicate Struggles(cfg: Config, t: Tracker, mastery: int) {
    Low(cfg, mastery) && NextCount(cfg, t, mastery) >= cfg.consecutive
  }

  /** The alert is raised once: nothing clears `lastAlertedAt`. */
  predicate RaisesAlert(cfg: Config, t: Tracker, mastery: int) {
    Struggles(cfg, t, mastery) && t.lastAlertedAt.None?
  }

  function NextTracker(cfg: Config, t: Tracker, mastery: int, at: Time): Tracker {
    Tracker(NextCount(cfg, t, mastery), if RaisesAlert(cfg, t, mastery) then Some(at) else t.lastAlertedAt)
  }

  function NextFlag(cfg: Config, t: Tracker, mastery: int, flag: bool): bool {
    if !Low(cfg, mastery) then false else if Struggles(cfg, t, mastery) then true else flag
  }

  function TouchTopic(d: Derived, cfg: Config, e: Event, topic: string): Derived {
    if topic !in e.mastery then d
    else
      var p, mastery := d.store, e.mastery[topic];
      var tk, k := TopicKey(e.child, e.subject, topic), TrackerKey(e.child, topic);
      var t := TrackerOf(p, k);
      var flag := tk in p.topics && p.topics[tk].struggling;
      Derived(
        p.(topics := p.topics[tk := Topic(mastery, NextFlag(cfg, t, mastery, flag))],
           trackers := p.trackers[k := NextTracker(cfg, t, mastery, e.occurredAt)]),
        if RaisesAlert(cfg, t, mastery) then d.alerts + [Alert(e.family, e.child, topic, e.occurredAt)] else d.alerts)
  }

  /** The first `n` topics of an event, one after another. */
  function TouchTopics(d: Derived, cfg: Config, e: Event, n: nat): Derived
    requires n <= |e.topics|
  {
    if n == 0 then d else TouchTopic(TouchTopics(d, cfg, e, n - 1), cfg, e, e.topics[n - 1])
  }

  predicate Known(p: Store, e: Event) {
    e.child in p.children && p.children[e.child].family == e.family
  }

  /** The child and subject rows, before the topics. */
  function Snapshot(p: Store, e: Event): Store
    requires Known(p, e)
  {
    var sk := SubjectKey(e.child, e.subject);
    p.(children := p.children[e.child := Credited(p.children[e.child], e.xp, e.minutes)],
       subjects := p.subjects[sk := StudiedSubject(Lookup(p.subjects, sk), AverageMastery(e), e.occurredAt)])
  }

  /** Everything a session event does to progress. XP counts whatever the outcome was. */
  function Derive(p: Store, cfg: Config, e: Event): Derived {
    if !Known(p, e) then Derived(p, []) else TouchTopics(Derived(Snapshot(p, e), []), cfg, e, |e.topics|)
  }

  function Run(p: Store, cfg: Config, es: seq<Event>): Derived
    decreases |es|
  {
    if es == [] then Derived(p, [])
    else
      var before := Run(p, cfg, es[..|es| - 1]);
      var d := Derive(before.store, cfg, es[|es| - 1]);
      Derived(d.store, before.alerts + d.alerts)
  }

  // ---- frames ----

  lemma {:induction false} TouchTopicsFrame(d: Derived, cfg: Config, e: Event, n: nat)
    requires n <= |e.topics|
    ensures TouchTopics(d, cfg, e, n).store.children == d.store.children
    ensures TouchTopics(d, cfg, e, n).store.subjects == d.store.subjects
  {
    if n > 0 { TouchTopicsFrame(d, cfg, e, n - 1); }
  }

  /** Children keep their family and nobody joins. */
  lemma {:induction false} RunKeepsChildren(p: Store, cfg: Config, es: seq<Event>)
    ensures Run(p, cfg, es).store.children.Keys == p.children.Keys
    ensures forall c :: c in p.children ==> Run(p, cfg, es).store.children[c].family == p.children[c].family
    decreases |es|
  {
    if es != [] {
      var e, before := es[|es| - 1], Run(p, cfg, es[..|es| - 1]).store;
      RunKeepsChildren(p, cfg, es[..|es| - 1]);
      if Known(before, e) { TouchTopicsFrame(Derived(Snapshot(before, e), []), cfg, e, |e.topics|); }
    }
  }

  // ---- levels: conservation, closed form, order ----

  predicate Credits(e: Event, c: Id, family: Id) {
    e.child == c && e.family == family
  }

  function Xp(es: seq<Event>, c: Id, family: Id): nat {
    if es == [] then 0
    else Xp(es[..|es| - 1], c, family) + if Credits(es[|es| - 1], c, family) then es[|es| - 1].xp else 0
  }

  function Minutes(es: seq<Event>, c: Id, family: Id): nat {
    if es == [] then 0
    else Minutes(es[..|es| - 1], c, family) + if Credits(es[|es| - 1], c, family) then es[|es| - 1].minutes else 0
  }

  /** A snapshot between events. */
  predicate Settled(c: Child) {
    c.levelXp < LEVEL_XP_SPAN && c.nextLevel == c.level + 1
  }

  lemma CreditTwice(c: Child, x: nat, m: nat, x': nat, m': nat)
    ensures Credited(Credited(c, x, m), x', m') == Credited(c, x + x', m + m')
  {
    var a := c.levelXp + x;
    assert a == LEVEL_XP_SPAN * (a / LEVEL_XP_SPAN) + a % LEVEL_XP_SPAN;
  }

  lemma DeriveCredits(p: Store, cfg: Config, e: Event, c: Id)
    requires c in p.children
    ensures c in Derive(p, cfg, e).store.children
    ensures Derive(p, cfg, e).store.children[c] ==
              if Credits(e, c, p.children[c].family) then Credited(p.children[c], e.xp, e.minutes) else p.children[c]
  {
    if Known(p, e) { TouchTopicsFrame(Derived(Snapshot(p, e), []), cfg, e, |e.topics|); }
  }

  /** After any run the snapshot is the one of earning the total at once. */
  lemma {:induction false} RunCredits(p: Store, cfg: Config, es: seq<Event>, c: Id)
    requires c in p.children && Settled(p.children[c])
    ensures c in Run(p, cfg, es).store.children
    ensures var f := p.children[c].family;
            Run(p, cfg, es).store.children[c] == Credited(p.children[c], Xp(es, c, f), Minutes(es, c, f))
    decreases |es|
  {
    if es != [] {
      var prefix, e, f := es[..|es| - 1], es[|es| - 1], p.children[c].family;
      RunCredits(p, cfg, prefix, c);
      DeriveCredits(Run(p, cfg, prefix).store, cfg, e, c);
      CreditTwice(p.children[c], Xp(prefix, c, f), Minutes(prefix, c, f), e.xp, e.minutes);
    }
  }

  /** Levels conserve XP, and a fresh child's level is a function of its total alone. */
  lemma LevelsConserveXp(p: Store, cfg: Config, es: seq<Event>, c: Id)
    requires c in p.children && Settled(p.children[c])
    ensures c in Run(p, cfg, es).store.children
    ensures var before, after := p.children[c], Run(p, cfg, es).store.children[c];
            && Settled(after)
            && after.totalXp == before.totalXp + Xp(es, c, before.family)
            && after.totalMinutes == before.totalMinutes + Minutes(es, c, before.family)
            && after.minutesThisWeek == before.minutesThisWeek + Minutes(es, c, before.family)
            && after.level * LEVEL_XP_SPAN + after.levelXp - after.totalXp
                 == before.level * LEVEL_XP_SPAN + before.levelXp - before.totalXp
            && (before.totalXp == 0 && before.level == 1 && before.levelXp == 0 ==>
                  after.level == 1 + after.totalXp / LEVEL_XP_SPAN && after.levelXp == after.totalXp % LEVEL_XP_SPAN)
  {
    RunCredits(p, cfg, es, c);
    var f := p.children[c].family;
    var a := p.children[c].levelXp + Xp(es, c, f);
    assert a == LEVEL_XP_SPAN * (a / LEVEL_XP_SPAN) + a % LEVEL_XP_SPAN;
  }

  lemma {:induction false} TotalsOfRemoved(es: seq<Event>, i: nat, c: Id, f: Id)
    requires i < |es|
    ensures Xp(es, c, f) == Xp(es[..i] + es[i + 1..], c, f) + if Credits(es[i], c, f) then es[i].xp else 0
    ensures Minutes(es, c, f) == Minutes(es[..i] + es[i + 1..], c, f) + if Credits(es[i], c, f) then es[i].minutes else 0
    decreases |es|
  {
    var n := |es| - 1;
    if i < n {
      TotalsOfRemoved(es[..n], i, c, f);
      assert (es[..i] + es[i + 1..])[..n - 1] == es[..n][..i] + es[..n][i + 1..];
    } else {
      assert es[..i] + es[i + 1..] == es[..n];
    }
  }

  lemma RemoveSame<T>(es: seq<T>, others: seq<T>, i: nat)
    requires es != [] && i < |others| && others[i] == es[|es| - 1] && multiset(es) == multiset(others)
    ensures multiset(es[..|es| - 1]) == multiset(others[..i] + others[i + 1..])
  {
    var x, a, b, c := others[i], es[..|es| - 1], others[..i], others[i + 1..];
    assert es == a + [x];
    assert others == (b + [x]) + c;
    assert multiset(a) + multiset{x} == multiset(b) + multiset{x} + multiset(c);
    assert multiset(a) == multiset(a) + multiset{x} - multiset{x};
    assert multiset(b + c) == multiset(b) + multiset(c);
  }

  /** Totals do not depend on the order of events. */
  lemma {:induction false} TotalsIgnoreOrder(es: seq<Event>, others: seq<Event>, c: Id, f: Id)
    requires multiset(es) == multiset(others)
    ensures Xp(es, c, f) == Xp(others, c, f) && Minutes(es, c, f) == Minutes(others, c, f)
    decreases |es|
  {
    if es == [] {
      assert others == [] by { assert |multiset(others)| == 0; }
    } else {
      var n := |es| - 1;
      assert es[n] in multiset(others);
      var i :| 0 <= i < |others| && others[i] == es[n];
      RemoveSame(es, others, i);
      TotalsIgnoreOrder(es[..n], others[..i] + others[i + 1..], c, f);
      TotalsOfRemoved(others, i, c, f);
    }
  }

  /** Snapshots do not depend on the order in which the same events are processed. */
  lemma SnapshotsIgnoreOrder(p: Store, cfg: Config, es: seq<Event>, others: seq<Event>, c: Id)
    requires c in p.children && Settled(p.children[c]) && multiset(es) == multiset(others)
    ensures c in Run(p, cfg, es).store.children && c in Run(p, cfg, others).store.children
    ensures Run(p, cfg, es).store.children[c] == Run(p, cfg, others).store.children[c]
  {
    RunCredits(p, cfg, es, c);
    RunCredits(p, cfg, others, c);
    TotalsIgnoreOrder(es, others, c, p.children[c].family);
  }

  // ---- the struggle counter ----

  /** One touch of a topic: the reported mastery and when. */
  datatype Touch = Touch(mastery: int, at: Time)

  /** The touches of a topic among the first `n` topics of an event; a repeated topic counts again. */
  function TouchesIn(e: Event, n: nat, topic: string): seq<Touch>
    requires n <= |e.topics|
  {
    if n == 0 then []
    else if e.topics[n - 1] == topic && topic in e.mastery
      then TouchesIn(e, n - 1, topic) + [Touch(e.mastery[topic], e.occurredAt)]
    else TouchesIn(e, n - 1, topic)
  }

  /** The touches of a child's topic over a run. */
  function Touches(es: seq<Event>, k: TrackerKey, family: Id): seq<Touch> {
    if es == [] then []
    else
      var e := es[|es| - 1];
      Touches(es[..|es| - 1], k, family)
      + if Credits(e, k.child, family) then TouchesIn(e, |e.topics|, k.topic) else []
  }

  function Track(t: Tracker, cfg: Config, touches: seq<Touch>): Tracker {
    if touches == [] then t
    else
      var x := touches[|touches| - 1];
      NextTracker(cfg, Track(t, cfg, touches[..|touches| - 1]), x.mastery, x.at)
  }

  function AlertsRaised(t: Tracker, cfg: Config, touches: seq<Touch>): nat {
    if touches == [] then 0
    else
      var n := |touches| - 1;
      AlertsRaised(t, cfg, touches[..n])
      + if RaisesAlert(cfg, Track(t, cfg, touches[..n]), touches[n].mastery) then 1 else 0
  }

  function AlertsAbout(alerts: seq<Alert>, k: TrackerKey): nat {
    if alerts == [] then 0
    else AlertsAbout(alerts[..|alerts| - 1], k)
         + if TrackerKey(alerts[|alerts| - 1].child, alerts[|alerts| - 1].topic) == k then 1 else 0
  }

  lemma {:induction false} AlertsAboutConcat(a: seq<Alert>, b: seq<Alert>, k: TrackerKey)
    ensures AlertsAbout(a + b, k) == AlertsAbout(a, k) + AlertsAbout(b, k)
    decreases |b|
  {
    if b == [] {
      assert a + b == a;
    } else {
      assert (a + b)[..|a + b| - 1] == a + b[..|b| - 1];
      AlertsAboutConcat(a, b[..|b| - 1], k);
    }
  }

  lemma {:induction false} TrackConcat(t: Tracker, cfg: Config, a: seq<Touch>, b: seq<Touch>)
    ensures Track(t, cfg, a + b) == Track(Track(t, cfg, a), cfg, b)
    ensures AlertsRaised(t, cfg, a + b) == AlertsRaised(t, cfg, a) + AlertsRaised(Track(t, cfg, a), cfg, b)
    decreases |b|
  {
    if b == [] {
      assert a + b == a;
    } else {
      assert (a + b)[..|a + b| - 1] == a + b[..|b| - 1];
      TrackConcat(t, cfg, a, b[..|b| - 1]);
    }
  }

  lemma TrackSnoc(t: Tracker, cfg: Config, touches: seq<Touch>, x: Touch)
    ensures Track(t, cfg, touches + [x]) == NextTracker(cfg, Track(t, cfg, touches), x.mastery, x.at)
    ensures AlertsRaised(t, cfg, touches + [x])
         == AlertsRaised(t, cfg, touches) + if RaisesAlert(cfg, Track(t, cfg, touches), x.mastery) then 1 else 0
  {
    assert (touches + [x])[..|touches|] == touches;
  }

  lemma TouchTracks(d: Derived, cfg: Config, e: Event, topic: string, k: TrackerKey)
    ensures var t, d' := TrackerOf(d.store, k), TouchTopic(d, cfg, e, topic);
            var touched := topic in e.mastery && TrackerKey(e.child, topic) == k;
            && TrackerOf(d'.store, k) == (if touched then NextTracker(cfg, t, e.mastery[topic], e.occurredAt) else t)
            && AlertsAbout(d'.alerts, k) ==
                 AlertsAbout(d.alerts, k) + if touched && RaisesAlert(cfg, t, e.mastery[topic]) then 1 else 0
  {
    var alert := Alert(e.family, e.child, topic, e.occurredAt);
    assert (d.alerts + [alert])[..|d.alerts|] == d.alerts;
  }

  lemma {:induction false} TopicsTrack(d: Derived, cfg: Config, e: Event, n: nat, k: TrackerKey)
    requires n <= |e.topics| && e.child == k.child
    ensures var touches := TouchesIn(e, n, k.topic);
            var d' := TouchTopics(d, cfg, e, n);
            && TrackerOf(d'.store, k) == Track(TrackerOf(d.store, k), cfg, touches)
            && AlertsAbout(d'.alerts, k) == AlertsAbout(d.alerts, k) + AlertsRaised(TrackerOf(d.store, k), cfg, touches)
  {
    if n > 0 {
      var topic := e.topics[n - 1];
      TopicsTrack(d, cfg, e, n - 1, k);
      TouchTracks(TouchTopics(d, cfg, e, n - 1), cfg, e, topic, k);
      if topic in e.mastery && topic == k.topic {
        TrackSnoc(TrackerOf(d.store, k), cfg, TouchesIn(e, n - 1, topic), Touch(e.mastery[topic], e.occurredAt));
      }
    }
  }

  /** An event of another child leaves the tracker and adds no alert about it. */
  lemma {:induction false} OtherTopicsTrackNothing(d: Derived, cfg: Config, e: Event, n: nat, k: TrackerKey)
    requires n <= |e.topics| && e.child != k.child
    ensures TrackerOf(TouchTopics(d, cfg, e, n).store, k) == TrackerOf(d.store, k)
    ensures AlertsAbout(TouchTopics(d, cfg, e, n).alerts, k) == AlertsAbout(d.alerts, k)
  {
    if n > 0 {
      OtherTopicsTrackNothing(d, cfg, e, n - 1, k);
      TouchTracks(TouchTopics(d, cfg, e, n - 1), cfg, e, e.topics[n - 1], k);
    }
  }

  lemma DeriveTracks(p: Store, cfg: Config, e: Event, k: TrackerKey, family: Id)
    requires k.child in p.children && p.children[k.child].family == family
    ensures var touches := if Credits(e, k.child, family) then TouchesIn(e, |e.topics|, k.topic) else [];
            var d := Derive(p, cfg, e);
            && TrackerOf(d.store, k) == Track(TrackerOf(p, k), cfg, touches)
            && AlertsAbout(d.alerts, k) == AlertsRaised(TrackerOf(p, k), cfg, touches)
  {
    if Known(p, e) {
      var d := Derived(Snapshot(p, e), []);
      if e.child == k.child { TopicsTrack(d, cfg, e, |e.topics|, k); } else { OtherTopicsTrackNothing(d, cfg, e, |e.topics|, k); }
    }
  }

  /** The tracker and the alerts of a topic are those of its touches, in order. */
  lemma {:induction false} RunTracks(p: Store, cfg: Config, es: seq<Event>, k: TrackerKey)
    requires k.child in p.children
    ensures var touches := Touches(es, k, p.children[k.child].family);
            && TrackerOf(Run(p, cfg, es).store, k) == Track(TrackerOf(p, k), cfg, touches)
            && AlertsAbout(Run(p, cfg, es).alerts, k) == AlertsRaised(TrackerOf(p, k), cfg, touches)
    decreases |es|
  {
    if es != [] {
      var prefix, e, family := es[..|es| - 1], es[|es| - 1], p.children[k.child].family;
      var before := Run(p, cfg, prefix);
      RunTracks(p, cfg, prefix, k);
      RunKeepsChildren(p, cfg, prefix);
      DeriveTracks(before.store, cfg, e, k, family);
      AlertsAboutConcat(before.alerts, Derive(before.store, cfg, e).alerts, k);
      TrackConcat(TrackerOf(p, k), cfg, Touches(prefix, k, family),
                  if Credits(e, k.child, family) then TouchesIn(e, |e.topics|, k.topic) else []);
    }
  }

  /** How many touches at the end are low in a row. */
  function TrailingLows(cfg: Config, touches: seq<Touch>): nat {
    if touches == [] || !Low(cfg, touches[|touches| - 1].mastery) then 0
    else TrailingLows(cfg, touches[..|touches| - 1]) + 1
  }

  ghost predicate LowRunAt(cfg: Config, touches: seq<Touch>, i: int) {
    && 0 <= i <= |touches| - cfg.consecutive
    && forall j :: i <= j < i + cfg.consecutive ==> Low(cfg, touches[j].mastery)
  }

  /** Somewhere the threshold's number of touches in a row are low. */
  ghost predicate HasLowRun(cfg: Config, touches: seq<Touch>) {
    exists i :: LowRunAt(cfg, touches, i)
  }

  lemma {:induction false} TrailingLowsAre(cfg: Config, touches: seq<Touch>)
    ensures TrailingLows(cfg, touches) <= |touches|
    ensures forall j :: |touches| - TrailingLows(cfg, touches) <= j < |touches| ==> Low(cfg, touches[j].mastery)
    ensures TrailingLows(cfg, touches) < |touches| ==>
              !Low(cfg, touches[|touches| - TrailingLows(cfg, touches) - 1].mastery)
    decreases |touches|
  {
    if touches != [] { TrailingLowsAre(cfg, touches[..|touches| - 1]); }
  }

  lemma LowRunAtTheEnd(cfg: Config, touches: seq<Touch>)
    requires cfg.consecutive > 0 && touches != []
    ensures HasLowRun(cfg, touches)
       <==> HasLowRun(cfg, touches[..|touches| - 1]) || TrailingLows(cfg, touches) >= cfg.consecutive
  {
    var n := |touches| - 1;
    TrailingLowsAre(cfg, touches);
    if TrailingLows(cfg, touches) >= cfg.consecutive {
      assert LowRunAt(cfg, touches, |touches| - cfg.consecutive);
    }
    if HasLowRun(cfg, touches[..n]) {
      var i :| LowRunAt(cfg, touches[..n], i);
      assert forall j :: i <= j < i + cfg.consecutive ==> touches[..n][j] == touches[j];
      assert LowRunAt(cfg, touches, i);
    }
    if HasLowRun(cfg, touches) && TrailingLows(cfg, touches) < cfg.consecutive {
      var i :| LowRunAt(cfg, touches, i);
      assert i + cfg.consecutive <= n;
      assert LowRunAt(cfg, touches[..n], i);
    }
  }

  /** From an empty tracker the counter is the run of lows at the end, and the alerts number one
      if some run of lows was long enough, and none otherwise. */
  lemma {:induction false} TrackCountsTrailingLows(cfg: Config, touches: seq<Touch>)
    requires cfg.consecutive > 0
    ensures var t := Track(Tracker(0, None), cfg, touches);
            && t.count == TrailingLows(cfg, touches)
            && (t.lastAlertedAt.Some? <==> HasLowRun(cfg, touches))
            && AlertsRaised(Tracker(0, None), cfg, touches) == if HasLowRun(cfg, touches) then 1 else 0
    decreases |touches|
  {
    if touches != [] {
      TrackCountsTrailingLows(cfg, touches[..|touches| - 1]);
      LowRunAtTheEnd(cfg, touches);
    }
  }

  /** Over any run from an empty tracker: the stored counter is the length of the trailing run of
      low touches, and the parent is alerted once in all if a long enough run occurred. */
  lemma StruggleCounterIsTheTrailingRun(p: Store, cfg: Config, es: seq<Event>, k: TrackerKey)
    requires cfg.consecutive > 0 && k.child in p.children && TrackerOf(p, k) == Tracker(0, None)
    ensures var touches := Touches(es, k, p.children[k.child].family);
            && TrackerOf(Run(p, cfg, es).store, k).count == TrailingLows(cfg, touches)
            && AlertsAbout(Run(p, cfg, es).alerts, k) == if HasLowRun(cfg, touches) then 1 else 0
  {
    RunTracks(p, cfg, es, k);
    TrackCountsTrailingLows(cfg, Touches(es, k, p.children[k.child].family));
  }

  // ---- the struggling flag and the counter ----

  /** The flag of a topic row says whether the tracker's counter is at the threshold. */
  predicate Agrees(p: Store, cfg: Config, tk: TopicKey) {
    tk in p.topics ==> (p.topics[tk].struggling <==> TrackerOf(p, TrackerKey(tk.child, tk.name)).count >= cfg.consecutive)
  }

  /** A touch of the row's topic name under another subject carries the counter across the
      threshold, one way or the other: it moves the shared counter and leaves the row's flag. */
  predicate Crosses(p: Store, cfg: Config, e: Event, topic: string, tk: TopicKey) {
    && topic in e.mastery && e.child == tk.child && topic == tk.name && e.subject != tk.subject && tk in p.topics
    && var t := TrackerOf(p, TrackerKey(tk.child, tk.name));
       (t.count >= cfg.consecutive) != (NextCount(cfg, t, e.mastery[topic]) >= cfg.consecutive)
  }

  /** One touch takes flag and counter apart exactly when it crosses. */
  lemma TouchAgreesIff(d: Derived, cfg: Config, e: Event, topic: string, tk: TopicKey)
    requires cfg.consecutive > 0 && Agrees(d.store, cfg, tk)
    ensures Agrees(TouchTopic(d, cfg, e, topic).store, cfg, tk) <==> !Crosses(d.store, cfg, e, topic, tk)
  {
  }

  /** Flag and counter agree before and after each of the first `n` touches of an event. */
  predicate TouchesAgree(d: Derived, cfg: Config, e: Event, n: nat, tk: TopicKey)
    requires n <= |e.topics|
  {
    Agrees(TouchTopics(d, cfg, e, n).store, cfg, tk) && (n == 0 || TouchesAgree(d, cfg, e, n - 1, tk))
  }

  /** None of the first `n` touches of an event crosses. */
  predicate NoTouchCrosses(d: Derived, cfg: Config, e: Event, n: nat, tk: TopicKey)
    requires n <= |e.topics|
  {
    n == 0 || (NoTouchCrosses(d, cfg, e, n - 1, tk)
               && !Crosses(TouchTopics(d, cfg, e, n - 1).store, cfg, e, e.topics[n - 1], tk))
  }

  lemma {:induction false} TouchesAgreeIff(d: Derived, cfg: Config, e: Event, n: nat, tk: TopicKey)
    requires n <= |e.topics| && cfg.consecutive > 0 && Agrees(d.store, cfg, tk)
    ensures TouchesAgree(d, cfg, e, n, tk) <==> NoTouchCrosses(d, cfg, e, n, tk)
  {
    if n > 0 {
      TouchesAgreeIff(d, cfg, e, n - 1, tk);
      if TouchesAgree(d, cfg, e, n - 1, tk) {
        TouchAgreesIff(TouchTopics(d, cfg, e, n - 1), cfg, e, e.topics[n - 1], tk);
      }
    }
  }

  /** Flag and counter agree at the start of a run and after every touch of it. */
  predicate AgreesThroughout(p: Store, cfg: Config, es: seq<Event>, tk: TopicKey)
    decreases |es|
  {
    if es == [] then Agrees(p, cfg, tk)
    else
      var before, e := Run(p, cfg, es[..|es| - 1]).store, es[|es| - 1];
      && AgreesThroughout(p, cfg, es[..|es| - 1], tk)
      && (Known(before, e) ==> TouchesAgree(Derived(Snapshot(before, e), []), cfg, e, |e.topics|, tk))
  }

  predicate NothingCrosses(p: Store, cfg: Config, es: seq<Event>, tk: TopicKey)
    decreases |es|
  {
    es == []
    || (var before, e := Run(p, cfg, es[..|es| - 1]).store, es[|es| - 1];
        && NothingCrosses(p, cfg, es[..|es| - 1], tk)
        && (Known(before, e) ==> NoTouchCrosses(Derived(Snapshot(before, e), []), cfg, e, |e.topics|, tk)))
  }

  lemma {:induction false} AgreesAtTheEnd(p: Store, cfg: Config, es: seq<Event>, tk: TopicKey)
    requires AgreesThroughout(p, cfg, es, tk)
    ensures Agrees(Run(p, cfg, es).store, cfg, tk)
    decreases |es|
  {
    if es != [] { AgreesAtTheEnd(p, cfg, es[..|es| - 1], tk); }
  }

  /** Flag and counter agree throughout a run exactly when no touch of it crosses. */
  lemma {:induction false} RunAgreesIff(p: Store, cfg: Config, es: seq<Event>, tk: TopicKey)
    requires cfg.consecutive > 0 && Agrees(p, cfg, tk)
    ensures AgreesThroughout(p, cfg, es, tk) <==> NothingCrosses(p, cfg, es, tk)
    decreases |es|
  {
    if es != [] {
      var prefix, e := es[..|es| - 1], es[|es| - 1];
      RunAgreesIff(p, cfg, prefix, tk);
      if AgreesThroughout(p, cfg, prefix, tk) {
        AgreesAtTheEnd(p, cfg, prefix, tk);
        var before := Run(p, cfg, prefix).store;
        if Known(before, e) { TouchesAgreeIff(Derived(Snapshot(before, e), []), cfg, e, |e.topics|, tk); }
      }
    }
  }

  /** The event touches the child's topic, under whatever subject. */
  predicate Uses(p: Store, e: Event, tk: TopicKey) {
    Known(p, e) && e.child == tk.child && tk.name in e.mastery && tk.name in e.topics
  }

  lemma {:induction false} OneSubjectTouchesCrossNothing(d: Derived, cfg: Config, e: Event, n: nat, tk: TopicKey)
    requires n <= |e.topics|
    requires e.child == tk.child && tk.name in e.mastery && tk.name in e.topics ==> e.subject == tk.subject
    ensures NoTouchCrosses(d, cfg, e, n, tk)
  {
    if n > 0 {
      OneSubjectTouchesCrossNothing(d, cfg, e, n - 1, tk);
      assert e.topics[n - 1] in e.topics;
    }
  }

  lemma {:induction false} OneSubjectCrossesNothing(p: Store, cfg: Config, es: seq<Event>, tk: TopicKey)
    requires forall i :: 0 <= i < |es| && Uses(p, es[i], tk) ==> es[i].subject == tk.subject
    ensures NothingCrosses(p, cfg, es, tk)
    decreases |es|
  {
    if es != [] {
      var prefix, e := es[..|es| - 1], es[|es| - 1];
      OneSubjectCrossesNothing(p, cfg, prefix, tk);
      RunKeepsChildren(p, cfg, prefix);
      var before := Run(p, cfg, prefix).store;
      if Known(before, e) {
        assert Known(p, e);
        OneSubjectTouchesCrossNothing(Derived(Snapshot(before, e), []), cfg, e, |e.topics|, tk);
      }
    }
  }

  /** When a child's topic name is used under one subject, the flag always says what the counter
      says. */
  lemma FlagFollowsCounter(p: Store, cfg: Config, es: seq<Event>, tk: TopicKey)
    requires cfg.consecutive > 0 && tk !in p.topics
    requires forall i :: 0 <= i < |es| && Uses(p, es[i], tk) ==> es[i].subject == tk.subject
    ensures AgreesThroughout(p, cfg, es, tk) && Agrees(Run(p, cfg, es).store, cfg, tk)
  {
    OneSubjectCrossesNothing(p, cfg, es, tk);
    RunAgreesIff(p, cfg, es, tk);
    AgreesAtTheEnd(p, cfg, es, tk);
  }

  // ---- two subjects with one topic name ----

  /** A completed session in which one topic is touched `n` times with one mastery. */
  function Drill(family: Id, tk: TopicKey, id: Id, mastery: int, n: nat, at: Time): Event {
    Event(id, family, tk.child, tk.subject, seq(n, _ => tk.name), map[tk.name := mastery], 0, 0, Completed, None, at)
  }

  /** Low touches count up, and flag the row once the threshold is reached. */
  lemma {:induction false} LowTouchesFlag(d: Derived, cfg: Config, e: Event, n: nat, tk: TopicKey)
    requires 0 < n <= |e.topics| && e.child == tk.child && e.subject == tk.subject && tk.name in e.mastery
    requires forall i :: 0 <= i < n ==> e.topics[i] == tk.name
    requires Low(cfg, e.mastery[tk.name]) && TrackerOf(d.store, TrackerKey(tk.child, tk.name)).count == 0
    ensures var p := TouchTopics(d, cfg, e, n).store;
            && TrackerOf(p, TrackerKey(tk.child, tk.name)).count == n
            && tk in p.topics && (n >= cfg.consecutive ==> p.topics[tk].struggling)
  {
    if n > 1 { LowTouchesFlag(d, cfg, e, n - 1, tk); }
    assert TouchTopics(d, cfg, e, 0) == d;
    assert e.topics[n - 1] == tk.name;
  }

  lemma RunOfTwo(p: Store, cfg: Config, a: Event, b: Event)
    ensures Run(p, cfg, [a, b]).store == Derive(Derive(p, cfg, a).store, cfg, b).store
  {
    assert [a, b][..1] == [a] && [a][..0] == [];
    assert Run(p, cfg, [a]).store == Derive(Run(p, cfg, []).store, cfg, a).store;
  }

  /** The second session: one good touch under another subject empties the counter. */
  lemma GoodTouchElsewhere(p: Store, cfg: Config, e: Event, tk: TopicKey)
    requires Known(p, e) && e.child == tk.child && e.subject != tk.subject && e.topics == [tk.name]
    requires tk.name in e.mastery && !Low(cfg, e.mastery[tk.name])
    ensures var p' := Derive(p, cfg, e).store;
            && TrackerOf(p', TrackerKey(tk.child, tk.name)).count == 0
            && Lookup(p'.topics, tk) == Lookup(p.topics, tk)
  {
    var d := Derived(Snapshot(p, e), []);
    assert TouchTopics(d, cfg, e, 1) == TouchTopic(TouchTopics(d, cfg, e, 0), cfg, e, tk.name);
  }

  /** Two subjects part them: from a child with no topic rows and no trackers, whatever the
      threshold, low touches under one subject and a good one under another leave the row flagged
      with an empty counter. */
  lemma TwoSubjectsDisagree(p: Store, cfg: Config, tk: TopicKey, other: string, at: Time)
    requires cfg.consecutive > 0 && 0 < cfg.masteryBelow <= 100
    requires tk.child in p.children && p.topics == map[] && p.trackers == map[] && other != tk.subject
    ensures var f := p.children[tk.child].family;
            var lows := Drill(f, tk, "a", 0, cfg.consecutive, at);
            var good := Drill(f, tk.(subject := other), "b", 100, 1, at);
            var p' := Run(p, cfg, [lows, good]).store;
            && tk in p'.topics && p'.topics[tk].struggling
            && TrackerOf(p', TrackerKey(tk.child, tk.name)).count == 0
            && !Agrees(p', cfg, tk)
  {
    var f := p.children[tk.child].family;
    var lows := Drill(f, tk, "a", 0, cfg.consecutive, at);
    var good := Drill(f, tk.(subject := other), "b", 100, 1, at);
    LowTouchesFlag(Derived(Snapshot(p, lows), []), cfg, lows, cfg.consecutive, tk);
    var mid := Derive(p, cfg, lows).store;
    TouchTopicsFrame(Derived(Snapshot(p, lows), []), cfg, lows, cfg.consecutive);
    GoodTouchElsewhere(mid, cfg, good, tk);
    RunOfTwo(p, cfg, lows, good);
  }

  // ---- mastery history ----

  /** The subject masteries a run derives. */
  function Masteries(es: seq<Event>, sk: SubjectKey, family: Id): seq<int> {
    if es == [] then []
    else
      var e := es[|es| - 1];
      Masteries(es[..|es| - 1], sk, family)
      + if Credits(e, sk.child, family) && e.subject == sk.subject then [AverageMastery(e)] else []
  }

  /** What a subject row looks like after the given masteries, starting from `history`. */
  predicate Reflects(row: Subject, history: seq<int>, masteries: seq<int>)
    requires masteries != []
  {
    var n := |masteries| - 1;
    && row.mastery == masteries[n]
    && var all := history + masteries;
       && row.history == (if |all| > 12 then all[|all| - 12..] else all)
       && (row.trend == Up <==> |all| > 1 && all[|all| - 1] > all[|all| - 2])
       && (row.trend == Down <==> |all| > 1 && all[|all| - 1] < all[|all| - 2])
  }

  lemma StudyReflects(row: Subject, history: seq<int>, masteries: seq<int>, m: int, at: Time)
    requires masteries != [] && Reflects(row, history, masteries)
    ensures Reflects(StudiedSubject(Some(row), m, at), history, masteries + [m])
  {
    var all := history + masteries;
    assert history + (masteries + [m]) == all + [m];
    assert (masteries + [m])[..|masteries|] == masteries;
    assert row.history[|row.history| - 1] == all[|all| - 1];
  }

  function HistoryIn(row: Option<Subject>): seq<int> {
    if row.Some? then row.value.history else []
  }

  /** A row that started as `first` and was studied with the given masteries. */
  predicate Shows(row: Option<Subject>, first: Option<Subject>, masteries: seq<int>) {
    if masteries == [] then row == first
    else row.Some? && Reflects(row.value, HistoryIn(first), masteries)
  }

  lemma StudyShows(row: Option<Subject>, first: Option<Subject>, masteries: seq<int>, m: int, at: Time)
    requires Shows(row, first, masteries) && |HistoryIn(first)| <= HISTORY_LENGTH
    ensures Shows(Some(StudiedSubject(row, m, at)), first, masteries + [m])
  {
    if masteries == [] {
      assert masteries + [m] == [m] && [m][..0] == [];
    } else {
      StudyReflects(row.value, HistoryIn(first), masteries, m, at);
    }
  }

  lemma DeriveStudies(p: Store, cfg: Config, e: Event, sk: SubjectKey)
    ensures Lookup(Derive(p, cfg, e).store.subjects, sk) ==
              if Known(p, e) && SubjectKey(e.child, e.subject) == sk
              then Some(StudiedSubject(Lookup(p.subjects, sk), AverageMastery(e), e.occurredAt)) else Lookup(p.subjects, sk)
  {
    if Known(p, e) { TouchTopicsFrame(Derived(Snapshot(p, e), []), cfg, e, |e.topics|); }
  }

  function RowAfter(p: Store, cfg: Config, es: seq<Event>, sk: SubjectKey): Option<Subject> {
    Lookup(Run(p, cfg, es).store.subjects, sk)
  }

  lemma LastEventStudies(p: Store, cfg: Config, es: seq<Event>, sk: SubjectKey)
    requires es != [] && sk.child in p.children
    ensures var prefix, e := es[..|es| - 1], es[|es| - 1];
            RowAfter(p, cfg, es, sk) ==
              if Credits(e, sk.child, p.children[sk.child].family) && e.subject == sk.subject
              then Some(StudiedSubject(RowAfter(p, cfg, prefix, sk), AverageMastery(e), e.occurredAt))
              else RowAfter(p, cfg, prefix, sk)
  {
    DeriveStudies(Run(p, cfg, es[..|es| - 1]).store, cfg, es[|es| - 1], sk);
    RunKeepsChildren(p, cfg, es[..|es| - 1]);
  }

  lemma OneMoreMastery(row: Option<Subject>, row': Option<Subject>, first: Option<Subject>, es: seq<Event>,
                       sk: SubjectKey, family: Id)
    requires es != [] && |HistoryIn(first)| <= HISTORY_LENGTH && Shows(row, first, Masteries(es[..|es| - 1], sk, family))
    requires var e := es[|es| - 1];
             row' == if Credits(e, sk.child, family) && e.subject == sk.subject
                     then Some(StudiedSubject(row, AverageMastery(e), e.occurredAt)) else row
    ensures Shows(row', first, Masteries(es, sk, family))
  {
    var e, masteries := es[|es| - 1], Masteries(es[..|es| - 1], sk, family);
    if Credits(e, sk.child, family) && e.subject == sk.subject {
      StudyShows(row, first, masteries, AverageMastery(e), e.occurredAt);
    } else {
      assert masteries + [] == masteries;
    }
  }

  /** A subject row shows the last mastery, its trend against the one before, and the last twelve
      of all the masteries there ever were. */
  lemma {:induction false} SubjectReflectsRun(p: Store, cfg: Config, es: seq<Event>, sk: SubjectKey)
    requires sk.child in p.children && |HistoryIn(Lookup(p.subjects, sk))| <= HISTORY_LENGTH
    ensures Shows(RowAfter(p, cfg, es, sk), Lookup(p.subjects, sk), Masteries(es, sk, p.children[sk.child].family))
    decreases |es|
  {
    if es != [] {
      SubjectReflectsRun(p, cfg, es[..|es| - 1], sk);
      LastEventStudies(p, cfg, es, sk);
      OneMoreMastery(RowAfter(p, cfg, es[..|es| - 1], sk), RowAfter(p, cfg, es, sk), Lookup(p.subjects, sk), es, sk,
                     p.children[sk.child].family);
    }
  }

  /** When the subject was last studied in a run. */
  function LastStudied(es: seq<Event>, sk: SubjectKey, family: Id): Option<Time> {
    if es == [] then None
    else
      var e := es[|es| - 1];
      if Credits(e, sk.child, family) && e.subject == sk.subject then Some(e.occurredAt)
      else LastStudied(es[..|es| - 1], sk, family)
  }

  /** A subject row carries the time of the last event processed for it, latest or not. */
  lemma {:induction false} LastStudiedIsLastProcessed(p: Store, cfg: Config, es: seq<Event>, sk: SubjectKey)
    requires sk.child in p.children
    ensures var last := LastStudied(es, sk, p.children[sk.child].family);
            var row := RowAfter(p, cfg, es, sk);
            if last.None? then row == Lookup(p.subjects, sk) else row.Some? && row.value.lastStudiedAt == last.value
    decreases |es|
  {
    if es != [] {
      LastStudiedIsLastProcessed(p, cfg, es[..|es| - 1], sk);
      LastEventStudies(p, cfg, es, sk);
    }
  }

  // ---- topic rows ----

  /** The last mastery reported for a topic under a subject. */
  function LastReported(es: seq<Event>, tk: TopicKey, family: Id): Option<int> {
    if es == [] then None
    else
      var e := es[|es| - 1];
      if Credits(e, tk.child, family) && e.subject == tk.subject && tk.name in e.mastery && tk.name in e.topics
      then Some(e.mastery[tk.name]) else LastReported(es[..|es| - 1], tk, family)
  }

  lemma {:induction false} TopicsShow(d: Derived, cfg: Config, e: Event, n: nat, tk: TopicKey)
    requires n <= |e.topics|
    ensures var d' := TouchTopics(d, cfg, e, n);
            if e.child == tk.child && e.subject == tk.subject && tk.name in e.mastery && tk.name in e.topics[..n]
            then tk in d'.store.topics && d'.store.topics[tk].mastery == e.mastery[tk.name]
            else Lookup(d'.store.topics, tk) == Lookup(d.store.topics, tk)
  {
    if n > 0 {
      TopicsShow(d, cfg, e, n - 1, tk);
      assert e.topics[..n] == e.topics[..n - 1] + [e.topics[n - 1]];
    }
  }

  lemma DeriveShows(p: Store, cfg: Config, e: Event, tk: TopicKey)
    ensures var p' := Derive(p, cfg, e).store;
            if Known(p, e) && e.child == tk.child && e.subject == tk.subject && tk.name in e.mastery && tk.name in e.topics
            then tk in p'.topics && p'.topics[tk].mastery == e.mastery[tk.name]
            else Lookup(p'.topics, tk) == Lookup(p.topics, tk)
  {
    if Known(p, e) {
      assert e.topics[..|e.topics|] == e.topics;
      TopicsShow(Derived(Snapshot(p, e), []), cfg, e, |e.topics|, tk);
    }
  }

  /** A topic row shows the last mastery reported for it, and exists once one was. */
  lemma {:induction false} TopicShowsLastReported(p: Store, cfg: Config, es: seq<Event>, tk: TopicKey)
    requires tk.child in p.children
    ensures var last := LastReported(es, tk, p.children[tk.child].family);
            var topics := Run(p, cfg, es).store.topics;
            if last.None? then Lookup(topics, tk) == Lookup(p.topics, tk) else tk in topics && topics[tk].mastery == last.value
    decreases |es|
  {
    if es != [] {
      TopicShowsLastReported(p, cfg, es[..|es| - 1], tk);
      RunKeepsChildren(p, cfg, es[..|es| - 1]);
      DeriveShows(Run(p, cfg, es[..|es| - 1]).store, cfg, es[|es| - 1], tk);
    }
  }

  lemma {:induction false} SumInRange(e: Event, n: nat)
    requires n <= |e.topics| && forall t :: t in e.mastery ==> 0 <= e.mastery[t] <= 100
    ensures 0 <= SumMastery(e, n) <= 100 * n
  {
    if n > 0 { SumInRange(e, n - 1); }
  }

  lemma QuotientBelow(x: int, k: int, bound: int)
    requires k > 0 && 0 <= x < bound * k
    ensures 0 <= x / k < bound
  {
  }

  lemma RoundedInRange(a: int, n: int, most: int)
    requires n > 0 && 0 <= a <= most * n
    ensures 0 <= RoundDiv(a, n) <= most
  {
    var x, k := 2 * a + n, 2 * n;
    assert most * k == 2 * (most * n) && (most + 1) * k == most * k + k;
    QuotientBelow(x, k, most + 1);
  }

  lemma NearestWhole(a: int, n: int)
    requires n > 0
    ensures -n < 2 * (RoundDiv(a, n) * n - a) <= n
  {
    var q := RoundDiv(a, n);
    assert q * (2 * n) <= 2 * a + n < (q + 1) * (2 * n);
    assert q * (2 * n) == 2 * (q * n) && (q + 1) * (2 * n) == 2 * (q * n) + 2 * n;
  }

  /** What an event reports of its topics, in order: a touched topic without a report counts as 0. */
  function Reported(e: Event): seq<int> {
    seq(|e.topics|, i requires 0 <= i < |e.topics| => if e.topics[i] !in e.mastery then 0 else e.mastery[e.topics[i]])
  }

  function Sum(xs: seq<int>): int {
    if xs == [] then 0 else Sum(xs[..|xs| - 1]) + xs[|xs| - 1]
  }

  lemma {:induction false} SumOfReported(e: Event, n: nat)
    requires n <= |e.topics|
    ensures SumMastery(e, n) == Sum(Reported(e)[..n])
  {
    if n > 0 {
      SumOfReported(e, n - 1);
      assert Reported(e)[..n][..n - 1] == Reported(e)[..n - 1];
    }
  }

  /** A subject's mastery is the whole number nearest to the mean of what its event reports, halves
      rounded up, and 0 without topics. */
  lemma AverageIsNearestMean(e: Event)
    ensures var a, n, total := AverageMastery(e), |e.topics|, Sum(Reported(e));
            if n == 0 then a == 0 else -n < 2 * (a * n - total) <= n
  {
    var n := |e.topics|;
    SumOfReported(e, n);
    assert Reported(e)[..n] == Reported(e);
    if n > 0 { NearestWhole(SumMastery(e, n), n); }
  }

  /** A subject's mastery stays a percentage. */
  lemma AverageIsAPercentage(e: Event)
    requires forall t :: t in e.mastery ==> 0 <= e.mastery[t] <= 100
    ensures 0 <= AverageMastery(e) <= 100
  {
    if e.topics != [] {
      SumInRange(e, |e.topics|);
      RoundedInRange(SumMastery(e, |e.topics|), |e.topics|, 100);
    }
  }

  // ---- what an alert says ----

  /** The alert is about a low topic of the event. */
  predicate AlertOf(a: Alert, cfg: Config, e: Event) {
    && a.family == e.family && a.child == e.child && a.at == e.occurredAt
    && a.topic in e.topics && a.topic in e.mastery && e.mastery[a.topic] < cfg.masteryBelow
  }

  lemma {:induction false} TouchesAlertOf(d: Derived, cfg: Config, e: Event, n: nat)
    requires n <= |e.topics| && forall a :: a in d.alerts ==> AlertOf(a, cfg, e)
    ensures forall a :: a in TouchTopics(d, cfg, e, n).alerts ==> AlertOf(a, cfg, e)
  {
    if n > 0 {
      TouchesAlertOf(d, cfg, e, n - 1);
      var before, topic := TouchTopics(d, cfg, e, n - 1), e.topics[n - 1];
      assert TouchTopic(before, cfg, e, topic).alerts == before.alerts
          || (TouchTopic(before, cfg, e, topic).alerts == before.alerts + [Alert(e.family, e.child, topic, e.occurredAt)]
              && topic in e.mastery && e.mastery[topic] < cfg.masteryBelow);
    }
  }

  /** Every alert an event raises carries its family, child and time, and names one of its topics
      whose mastery is below the threshold. */
  lemma AlertsAreOfTheEvent(p: Store, cfg: Config, e: Event, a: Alert)
    requires a in Derive(p, cfg, e).alerts
    ensures AlertOf(a, cfg, e)
  {
    TouchesAlertOf(Derived(Snapshot(p, e), []), cfg, e, |e.topics|);
  }

  // ---- the service ----

  class ProgressService {
    const cfg: Config
    var children: map<Id, Child>
    var subjects: map<SubjectKey, Subject>
    var topics: map<TopicKey, Topic>
    var trackers: map<TrackerKey, Tracker>

    ghost function State(): Store
      reads this
    {
      Store(children, subjects, topics, trackers)
    }

    /** The level loop: full spans of XP become levels. */
    method LevelUp(level0: nat, levelXp0: nat) returns (level: nat, levelXp: nat)
      ensures levelXp < LEVEL_XP_SPAN
      ensures level == level0 + levelXp0 / LEVEL_XP_SPAN && levelXp == levelXp0 % LEVEL_XP_SPAN
    {
      level, levelXp := level0, levelXp0;
      while levelXp >= LEVEL_XP_SPAN
        invariant level >= level0
        invariant level * LEVEL_XP_SPAN + levelXp == level0 * LEVEL_XP_SPAN + levelXp0
      {
        levelXp := levelXp - LEVEL_XP_SPAN;
        level := level + 1;
      }
      assert levelXp0 == (level - level0) * LEVEL_XP_SPAN + levelXp;
    }

    method DeriveFromSession(e: Event) returns (alerts: seq<Alert>)
      modifies this
      ensures Derived(State(), alerts) == Derive(old(State()), cfg, e)
    {
      if e.child !in children || children[e.child].family != e.family { return []; }
      ghost var start := State();
      var child := children[e.child];
      var level, levelXp := LevelUp(child.level, child.levelXp + e.xp);
      children := children[e.child := child.(
        totalXp := child.totalXp + e.xp, level := level, levelXp := levelXp, nextLevel := level + 1,
        totalMinutes := child.totalMinutes + e.minutes, minutesThisWeek := child.minutesThisWeek + e.minutes)];
      UpsertSubjectProgress(e, AverageMastery(e));
      assert State() == Snapshot(start, e);
      alerts := [];
      for i := 0 to |e.topics|
        invariant Derived(State(), alerts) == TouchTopics(Derived(Snapshot(start, e), []), cfg, e, i)
      {
        alerts := DeriveTopic(e, e.topics[i], alerts);
      }
    }

    method DeriveTopic(e: Event, topic: string, alerts0: seq<Alert>) returns (alerts: seq<Alert>)
      modifies this`topics, this`trackers
      ensures Derived(State(), alerts) == TouchTopic(Derived(old(State()), alerts0), cfg, e, topic)
    {
      alerts := alerts0;
      if topic !in e.mastery { return; }
      var tk := TopicKey(e.child, e.subject, topic);
      ghost var flag := tk in topics && topics[tk].struggling;
      ghost var touched := topics;
      UpsertTopicProgress(e, topic, e.mastery[topic]);
      var alert := ApplyStruggle(e, topic, e.mastery[topic], flag);
      assert touched[tk := Topic(e.mastery[topic], flag)][tk := topics[tk]] == touched[tk := topics[tk]];
      if alert.Some? { alerts := alerts + [alert.value]; }
    }

    method UpsertSubjectProgress(e: Event, mastery: int)
      modifies this`subjects
      ensures var sk := SubjectKey(e.child, e.subject);
              subjects == old(subjects)[sk := StudiedSubject(Lookup(old(subjects), sk), mastery, e.occurredAt)]
    {
      var sk := SubjectKey(e.child, e.subject);
      if sk in subjects {
        var existing := subjects[sk];
        subjects := subjects[sk := Subject(mastery, TrendFor(existing.history, mastery), e.occurredAt,
                                           LastOf(existing.history + [mastery], HISTORY_LENGTH))];
      } else {
        subjects := subjects[sk := Subject(mastery, Flat, e.occurredAt, [mastery])];
      }
    }

    method UpsertTopicProgress(e: Event, topic: string, mastery: int)
      modifies this`topics
      ensures var tk := TopicKey(e.child, e.subject, topic);
              topics == old(topics)[tk := Topic(mastery, tk in old(topics) && old(topics)[tk].struggling)]
    {
      var tk := TopicKey(e.child, e.subject, topic);
      if tk in topics {
        topics := topics[tk := topics[tk].(mastery := mastery)];
      } else {
        topics := topics[tk := Topic(mastery, false)];
      }
    }

    method ApplyStruggle(e: Event, topic: string, mastery: int, ghost flag: bool) returns (alert: Option<Alert>)
      requires var tk := TopicKey(e.child, e.subject, topic); tk in topics && topics[tk] == Topic(mastery, flag)
      modifies this`topics, this`trackers
      ensures var tk, k := TopicKey(e.child, e.subject, topic), TrackerKey(e.child, topic);
              var t := TrackerOf(old(State()), k);
              && topics == old(topics)[tk := Topic(mastery, NextFlag(cfg, t, mastery, flag))]
              && trackers == old(trackers)[k := NextTracker(cfg, t, mastery, e.occurredAt)]
              && alert == if RaisesAlert(cfg, t, mastery) then Some(Alert(e.family, e.child, topic, e.occurredAt)) else None
    {
      var tk, k := TopicKey(e.child, e.subject, topic), TrackerKey(e.child, topic);
      var low := mastery < cfg.masteryBelow;
      var current := if k in trackers then trackers[k].count else 0;
      var alertedAt := if k in trackers then trackers[k].lastAlertedAt else None;
      var nextCount := if low then current + 1 else 0;
      trackers := trackers[k := Tracker(nextCount, alertedAt)];
      if !low || nextCount < cfg.consecutive {
        if !low { topics := topics[tk := topics[tk].(struggling := false)]; }
        return None;
      }
      topics := topics[tk := topics[tk].(struggling := true)];
      if alertedAt.Some? { return None; }
      trackers := trackers[k := Tracker(nextCount, Some(e.occurredAt))];
      return Some(Alert(e.family, e.child, topic, e.occurredAt));
    }
  }
}
