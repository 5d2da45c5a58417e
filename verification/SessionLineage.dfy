/** Refresh-token sessions (src/modules/auth/auth.service.ts).

    A rotation creates a new session row and links the old one to it through `replacedById`.
    The module gives the store in its imperative form (class `AuthStore`), the transition
    function it is proved against (`Step`), and the properties of every run of steps. */
module SessionLineage {
  import opened Common

  /** `principalType` together with the one of `parentId`/`childId` that is set. */
  datatype Principal = ParentOf(parentId: string) | ChildOf(childId: string)

  datatype Session = Session(
    familyId: string,
    principal: Principal,
    tokenHash: string,            // sha256 of the random part, taken to be injective
    expiresAt: Time,
    deviceLabel: Option<string>,
    rotatedAt: Option<Time>,
    replacedById: Option<string>,
    revokedAt: Option<Time>,
    lastUsedAt: Option<Time>)

  type Sessions = map<string, Session>

  /** The session table, the families whose `deletedAt` is set, and the refresh lifetime. */
  datatype State = State(sessions: Sessions, pending: set<string>, ttl: Time)

  /** The claims of a presented refresh token that the service reads. */
  datatype RefreshToken = RefreshToken(sid: string, jti: string)

  /** Every way `rotateRefresh` can end, in the order its checks run. */
  datatype Verdict =
    | InvalidToken | SessionRevoked | SessionExpired | PendingDeletion
    | Replayed | WrongSecret | Accepted

  function Judge(st: State, verified: bool, token: RefreshToken, now: Time): Verdict {
    if !verified then InvalidToken
    else if token.sid !in st.sessions || st.sessions[token.sid].revokedAt.Some? then SessionRevoked
    else
      var s := st.sessions[token.sid];
      if s.expiresAt < now then SessionExpired
      else if s.familyId in st.pending then PendingDeletion
      else if s.rotatedAt.Some? then Replayed
      else if s.tokenHash != token.jti then WrongSecret
      else Accepted
  }

  predicate SessionValid(ss: Sessions, id: string, now: Time) {
    id in ss && ss[id].revokedAt.None? && now <= ss[id].expiresAt
  }

  /** The sessions met when following `replacedById` from `id`. Dropping the node just met
      makes this total on every table, even one whose links form a cycle. */
  function Chain(ss: Sessions, id: string): (c: seq<string>)
    ensures forall x :: x in c ==> x in ss
    ensures id in ss <==> c != []
    ensures c != [] ==> c[0] == id
    decreases ss.Keys
  {
    if id !in ss then []
    else [id] + (match ss[id].replacedById case None => [] case Some(n) => Chain(ss - {id}, n))
  }

  function Met(ss: Sessions, id: string): set<string> {
    set x | x in Chain(ss, id)
  }

  /** Stamps `revokedAt` on the given rows that do not carry it yet. */
  function Revoke(ss: Sessions, ids: set<string>, now: Time): Sessions {
    map id | id in ss ::
      if id in ids && ss[id].revokedAt.None? then ss[id].(revokedAt := Some(now)) else ss[id]
  }

  function FreshSession(familyId: string, principal: Principal, secret: string,
                        expiresAt: Time, deviceLabel: Option<string>): Session {
    Session(familyId, principal, secret, expiresAt, deviceLabel, None, None, None, None)
  }

  /** One serialised call. Ids and secrets are the values the database and the random source
      hand out. */
  datatype Op =
    | Issue(id: string, familyId: string, principal: Principal, secret: string,
            deviceLabel: Option<string>, now: Time)
    | Rotate(verified: bool, token: RefreshToken, newId: string, newSecret: string, now: Time)
    | RevokeOne(id: string, now: Time)
    | RevokeChild(childId: string, now: Time)
    | MarkFamily(familyId: string, now: Time)
    | UnmarkFamily(familyId: string)

  function SessionsOfChild(ss: Sessions, childId: string): set<string> {
    set id | id in ss && ss[id].principal == ChildOf(childId)
  }

  function SessionsOfFamily(ss: Sessions, familyId: string): set<string> {
    set id | id in ss && ss[id].familyId == familyId
  }

  function RotateTable(ss: Sessions, sid: string, newId: string, newSecret: string,
                       now: Time, ttl: Time): Sessions
    requires sid in ss
  {
    var s := ss[sid];
    ss[newId := FreshSession(s.familyId, s.principal, newSecret, now + ttl, s.deviceLabel)]
      [sid := s.(rotatedAt := Some(now), replacedById := Some(newId), lastUsedAt := Some(now))]
  }

  function Step(st: State, op: Op): State {
    var ss := st.sessions;
    match op
    case Issue(id, familyId, principal, secret, device, now) =>
      st.(sessions := ss[id := FreshSession(familyId, principal, secret, now + st.ttl, device)])
    case Rotate(verified, token, newId, newSecret, now) =>
      (match Judge(st, verified, token, now)
       case Replayed => st.(sessions := Revoke(ss, Met(ss, token.sid), now))
       case Accepted => st.(sessions := RotateTable(ss, token.sid, newId, newSecret, now, st.ttl))
       case _ => st)
    case RevokeOne(id, now) => st.(sessions := Revoke(ss, {id}, now))
    case RevokeChild(childId, now) => st.(sessions := Revoke(ss, SessionsOfChild(ss, childId), now))
    case MarkFamily(familyId, now) =>
      if familyId in st.pending then st
      else State(Revoke(ss, SessionsOfFamily(ss, familyId), now), st.pending + {familyId}, st.ttl)
    case UnmarkFamily(familyId) => st.(pending := st.pending - {familyId})
  }

  /** The primary key is unique: a created row takes an id no row has. */
  predicate FreshId(ss: Sessions, op: Op) {
    (op.Issue? ==> op.id !in ss) && (op.Rotate? ==> op.newId !in ss)
  }

  function Run(st: State, ops: seq<Op>): State
    decreases ops
  {
    if ops == [] then st else Run(Step(st, ops[0]), ops[1..])
  }

  predicate FreshRun(st: State, ops: seq<Op>)
    decreases ops
  {
    ops == [] || (FreshId(st.sessions, ops[0]) && FreshRun(Step(st, ops[0]), ops[1..]))
  }

  // ---- the lineage graph ----

  predicate Linked(ss: Sessions, a: string, b: string) {
    a in ss && ss[a].replacedById == Some(b)
  }

  ghost predicate Ranked(ss: Sessions, rank: map<string, nat>) {
    ss.Keys <= rank.Keys && forall a, b :: Linked(ss, a, b) ==> b in rank && rank[a] < rank[b]
  }

  ghost predicate Acyclic(ss: Sessions) {
    exists rank :: Ranked(ss, rank)
  }

  predicate SameOwner(s: Session, t: Session) {
    s.familyId == t.familyId && s.principal == t.principal
  }

  /** What every step keeps. */
  ghost predicate Lineages(ss: Sessions) {
    && (forall a, b :: Linked(ss, a, b) ==> b in ss && SameOwner(ss[a], ss[b]))
    && (forall a, b, c :: Linked(ss, a, c) && Linked(ss, b, c) ==> a == b)
    && (forall a :: a in ss ==> (ss[a].rotatedAt.Some? <==> ss[a].replacedById.Some?))
    && Acyclic(ss)
  }

  predicate Reaches(ss: Sessions, a: string, b: string) {
    b in Chain(ss, a)
  }

  predicate SameLineage(ss: Sessions, a: string, b: string) {
    Reaches(ss, a, b) || Reaches(ss, b, a)
  }

  lemma {:induction false} ChainIgnoresLowerRank(ss: Sessions, rank: map<string, nat>, x: string, n: string)
    requires Ranked(ss, rank) && x in rank && n in rank && rank[x] < rank[n]
    ensures Chain(ss - {x}, n) == Chain(ss, n)
    decreases ss.Keys
  {
    if n in ss && ss[n].replacedById.Some? {
      var m := ss[n].replacedById.value;
      assert Linked(ss, n, m);
      assert forall a, b :: Linked(ss - {n}, a, b) ==> Linked(ss, a, b);
      ChainIgnoresLowerRank(ss - {n}, rank, x, m);
      assert ss - {n} - {x} == ss - {x} - {n};
    }
  }

  /** On an acyclic table the walk is the plain recursive one. */
  lemma {:induction false} ChainUnfolds(ss: Sessions, a: string, b: string)
    requires Acyclic(ss) && Linked(ss, a, b)
    ensures Chain(ss, a) == [a] + Chain(ss, b)
  {
    var rank :| Ranked(ss, rank);
    ChainIgnoresLowerRank(ss, rank, a, b);
  }

  /** What is left of a walk whose cursor is `cursor`. */
  function Rest(ss: Sessions, cursor: Option<string>): seq<string> {
    if cursor.Some? then Chain(ss, cursor.value) else []
  }

  lemma RestUnfolds(ss: Sessions, a: string)
    requires Acyclic(ss) && a in ss
    ensures Rest(ss, Some(a)) == [a] + Rest(ss, ss[a].replacedById)
  {
    if ss[a].replacedById.Some? {
      ChainUnfolds(ss, a, ss[a].replacedById.value);
    }
  }

  /** A chain node is the start itself or lies on the chain of the start's successor. */
  lemma ReachesSplit(ss: Sessions, a: string, b: string)
    requires Acyclic(ss) && Reaches(ss, a, b)
    ensures a in ss
    ensures a == b || (ss[a].replacedById.Some? && Reaches(ss, ss[a].replacedById.value, b))
  {
    if ss[a].replacedById.Some? {
      ChainUnfolds(ss, a, ss[a].replacedById.value);
    }
  }

  /** The rest of a chain is the chain of the node it starts with. */
  lemma {:induction false} ChainSuffix(ss: Sessions, rank: map<string, nat>, a: string, i: nat)
    requires Ranked(ss, rank) && i < |Chain(ss, a)|
    ensures Chain(ss, a)[i..] == Chain(ss, Chain(ss, a)[i])
    decreases i
  {
    if i > 0 {
      var n := ss[a].replacedById.value;
      ChainUnfolds(ss, a, n);
      assert Chain(ss, a)[i..] == Chain(ss, n)[i - 1..];
      ChainSuffix(ss, rank, n, i - 1);
    }
  }

  lemma SecondOfChain(ss: Sessions, a: string)
    requires Acyclic(ss) && |Chain(ss, a)| > 1
    ensures a in ss && ss[a].replacedById.Some?
    ensures Chain(ss, a) == [a] + Chain(ss, ss[a].replacedById.value)
  {
    ChainUnfolds(ss, a, ss[a].replacedById.value);
  }

  lemma {:induction false} ReachesRaisesRank(ss: Sessions, rank: map<string, nat>, a: string, i: nat)
    requires Ranked(ss, rank) && i < |Chain(ss, a)|
    ensures rank[Chain(ss, a)[i]] >= rank[a] + i
    decreases i
  {
    if i > 0 {
      SecondOfChain(ss, a);
      var n := ss[a].replacedById.value;
      assert Linked(ss, a, n);
      ReachesRaisesRank(ss, rank, n, i - 1);
    }
  }

  /** No session comes back to itself: a chain never repeats a node. */
  lemma ChainHasNoRepeats(ss: Sessions, a: string, i: nat, j: nat)
    requires Acyclic(ss) && i < j < |Chain(ss, a)|
    ensures Chain(ss, a)[i] != Chain(ss, a)[j]
  {
    var rank :| Ranked(ss, rank);
    ChainSuffix(ss, rank, a, i);
    assert Chain(ss, a)[j] == Chain(ss, a)[i..][j - i];
    ReachesRaisesRank(ss, rank, Chain(ss, a)[i], j - i);
  }

  lemma ReachesTransitive(ss: Sessions, a: string, b: string, c: string)
    requires Acyclic(ss) && Reaches(ss, a, b) && Reaches(ss, b, c)
    ensures Reaches(ss, a, c)
  {
    var rank :| Ranked(ss, rank);
    var i :| 0 <= i < |Chain(ss, a)| && Chain(ss, a)[i] == b;
    ChainSuffix(ss, rank, a, i);
  }

  /** Two sessions reached from one session lie on one line. */
  lemma ForwardComparable(ss: Sessions, a: string, b: string, c: string)
    requires Acyclic(ss) && Reaches(ss, a, b) && Reaches(ss, a, c)
    ensures SameLineage(ss, b, c)
  {
    var rank :| Ranked(ss, rank);
    var i :| 0 <= i < |Chain(ss, a)| && Chain(ss, a)[i] == b;
    var j :| 0 <= j < |Chain(ss, a)| && Chain(ss, a)[j] == c;
    ChainSuffix(ss, rank, a, i);
    ChainSuffix(ss, rank, a, j);
    if i <= j {
      assert Chain(ss, a)[j] == Chain(ss, a)[i..][j - i];
    } else {
      assert Chain(ss, a)[i] == Chain(ss, a)[j..][i - j];
    }
  }

  /** A session other than the start is entered through a link. */
  lemma LastHop(ss: Sessions, a: string, b: string) returns (p: string)
    requires Acyclic(ss) && Reaches(ss, a, b) && a != b
    ensures Reaches(ss, a, p) && Linked(ss, p, b)
  {
    var rank :| Ranked(ss, rank);
    var i :| 0 <= i < |Chain(ss, a)| && Chain(ss, a)[i] == b;
    p := Chain(ss, a)[i - 1];
    ChainSuffix(ss, rank, a, i - 1);
    ReachesSplit(ss, p, b);
    assert Chain(ss, p)[1] == b by { assert Chain(ss, a)[i - 1..][1] == Chain(ss, a)[i]; }
    ChainUnfolds(ss, p, ss[p].replacedById.value);
  }

  /** Two sessions that reach one session lie on one line. */
  lemma {:induction false} BackwardComparable(ss: Sessions, rank: map<string, nat>, a: string, b: string, c: string)
    requires Lineages(ss) && Ranked(ss, rank) && Reaches(ss, b, a) && Reaches(ss, c, a)
    ensures SameLineage(ss, b, c)
    decreases rank[a]
  {
    if a != b && a != c {
      var p := LastHop(ss, b, a);
      var q := LastHop(ss, c, a);
      assert p == q;
      BackwardComparable(ss, rank, p, b, c);
    }
  }

  /** `SameLineage` is transitive, so it cuts the table into whole lineages. */
  lemma SameLineageTransitive(ss: Sessions, a: string, b: string, c: string)
    requires Lineages(ss) && SameLineage(ss, a, b) && SameLineage(ss, b, c)
    ensures SameLineage(ss, a, c)
  {
    var rank :| Ranked(ss, rank);
    if Reaches(ss, a, b) && Reaches(ss, b, c) {
      ReachesTransitive(ss, a, b, c);
    } else if Reaches(ss, b, a) && Reaches(ss, c, b) {
      ReachesTransitive(ss, c, b, a);
    } else if Reaches(ss, b, a) && Reaches(ss, b, c) {
      ForwardComparable(ss, b, a, c);
    } else {
      BackwardComparable(ss, rank, b, a, c);
    }
  }

  lemma {:induction false} ChainKeepsOwner(ss: Sessions, a: string, i: nat)
    requires Lineages(ss) && i < |Chain(ss, a)|
    ensures SameOwner(ss[a], ss[Chain(ss, a)[i]])
    decreases i
  {
    if i > 0 {
      var n := ss[a].replacedById.value;
      assert Linked(ss, a, n);
      ChainUnfolds(ss, a, n);
      ChainKeepsOwner(ss, n, i - 1);
    }
  }

  /** All sessions of a lineage belong to one family and one principal. */
  lemma LineageHasOneOwner(ss: Sessions, a: string, b: string)
    requires Lineages(ss) && SameLineage(ss, a, b)
    ensures a in ss && b in ss && ss[a].familyId == ss[b].familyId && ss[a].principal == ss[b].principal
  {
    if Reaches(ss, a, b) {
      var i :| 0 <= i < |Chain(ss, a)| && Chain(ss, a)[i] == b;
      ChainKeepsOwner(ss, a, i);
    } else {
      var i :| 0 <= i < |Chain(ss, b)| && Chain(ss, b)[i] == a;
      ChainKeepsOwner(ss, b, i);
    }
  }

  function Tail(ss: Sessions, a: string): string
    requires a in ss
  {
    Chain(ss, a)[|Chain(ss, a)| - 1]
  }

  /** Every lineage has exactly one session that was not rotated. */
  lemma LineageHasOneTail(ss: Sessions, a: string)
    requires Lineages(ss) && a in ss
    ensures Reaches(ss, a, Tail(ss, a)) && ss[Tail(ss, a)].rotatedAt.None?
    ensures forall t :: SameLineage(ss, a, t) && ss[t].rotatedAt.None? ==> t == Tail(ss, a)
  {
    var rank :| Ranked(ss, rank);
    var t := Tail(ss, a);
    ChainSuffix(ss, rank, a, |Chain(ss, a)| - 1);
    if ss[t].replacedById.Some? {
      var n := ss[t].replacedById.value;
      assert Linked(ss, t, n);
      ChainUnfolds(ss, t, n);
      assert false;
    }
    forall u | SameLineage(ss, a, u) && ss[u].rotatedAt.None?
      ensures u == t
    {
      if Reaches(ss, u, a) {
        ReachesSplit(ss, u, a);
      } else {
        ForwardComparable(ss, a, u, t);
        if Reaches(ss, u, t) { ReachesSplit(ss, u, t); } else { ReachesSplit(ss, t, u); }
      }
    }
  }

  // ---- every step keeps the lineages ----

  lemma {:induction false} ChainDependsOnLinks(ss: Sessions, tt: Sessions, a: string)
    requires ss.Keys == tt.Keys
    requires forall x :: x in ss ==> ss[x].replacedById == tt[x].replacedById
    ensures Chain(ss, a) == Chain(tt, a)
    decreases ss.Keys
  {
    if a in ss && ss[a].replacedById.Some? {
      ChainDependsOnLinks(ss - {a}, tt - {a}, ss[a].replacedById.value);
    }
  }

  /** Only revocation stamps differ. */
  lemma RevokeKeepsLinks(ss: Sessions, ids: set<string>, now: Time, a: string)
    ensures Revoke(ss, ids, now).Keys == ss.Keys
    ensures a in ss ==> Revoke(ss, ids, now)[a].replacedById == ss[a].replacedById
                        && Revoke(ss, ids, now)[a].rotatedAt == ss[a].rotatedAt && SameOwner(Revoke(ss, ids, now)[a], ss[a])
  {
  }

  lemma RevokeKeepsChain(ss: Sessions, ids: set<string>, now: Time, a: string)
    ensures Chain(Revoke(ss, ids, now), a) == Chain(ss, a)
  {
    RevokeKeepsLinks(ss, ids, now, a);
    forall x ensures x in ss ==> Revoke(ss, ids, now)[x].replacedById == ss[x].replacedById {
      RevokeKeepsLinks(ss, ids, now, x);
    }
    ChainDependsOnLinks(ss, Revoke(ss, ids, now), a);
  }

  lemma SameLinksKeepLineages(ss: Sessions, tt: Sessions)
    requires Lineages(ss) && tt.Keys == ss.Keys
    requires forall a :: a in ss ==> tt[a].replacedById == ss[a].replacedById && tt[a].rotatedAt == ss[a].rotatedAt
                                     && SameOwner(tt[a], ss[a])
    ensures Lineages(tt)
  {
    var rank :| Ranked(ss, rank);
    assert forall a, b :: Linked(tt, a, b) <==> Linked(ss, a, b);
    assert Ranked(tt, rank);
  }

  lemma RevokeKeepsLineages(ss: Sessions, ids: set<string>, now: Time)
    requires Lineages(ss)
    ensures Lineages(Revoke(ss, ids, now))
  {
    SameLinksKeepLineages(ss, Revoke(ss, ids, now));
  }

  lemma IssuingKeepsLineages(st: State, op: Op)
    requires Lineages(st.sessions) && op.Issue? && FreshId(st.sessions, op)
    ensures Lineages(Step(st, op).sessions)
  {
    var ss, tt := st.sessions, Step(st, op).sessions;
    var rank :| Ranked(ss, rank);
    assert forall a, b :: Linked(tt, a, b) <==> Linked(ss, a, b);
    assert forall a, b :: Linked(ss, a, b) ==> a != op.id && b != op.id;
    assert Ranked(tt, rank[op.id := 0]);
  }

  lemma RotateKeepsLineages(ss: Sessions, sid: string, newId: string, newSecret: string, now: Time, ttl: Time)
    requires Lineages(ss) && sid in ss && ss[sid].rotatedAt.None? && newId !in ss
    ensures Lineages(RotateTable(ss, sid, newId, newSecret, now, ttl))
  {
    var tt := RotateTable(ss, sid, newId, newSecret, now, ttl);
    var rank :| Ranked(ss, rank);
    assert forall a, b :: Linked(tt, a, b) <==> Linked(ss, a, b) || (a == sid && b == newId);
    assert forall a, b :: Linked(ss, a, b) ==> a != newId && b != newId;
    var rank' := rank[newId := rank[sid] + 1];
    assert Ranked(tt, rank');
  }

  lemma RotationKeepsLineages(st: State, op: Op)
    requires Lineages(st.sessions) && op.Rotate? && FreshId(st.sessions, op)
    ensures Lineages(Step(st, op).sessions)
  {
    var verdict := Judge(st, op.verified, op.token, op.now);
    if verdict == Replayed {
      RevokeKeepsLineages(st.sessions, Met(st.sessions, op.token.sid), op.now);
    } else if verdict == Accepted {
      RotateKeepsLineages(st.sessions, op.token.sid, op.newId, op.newSecret, op.now, st.ttl);
    }
  }

  lemma RevokingKeepsLineages(st: State, op: Op)
    requires Lineages(st.sessions) && (op.RevokeOne? || op.RevokeChild? || op.MarkFamily?)
    ensures Lineages(Step(st, op).sessions)
  {
    var ids := match op
      case RevokeOne(id, _) => {id}
      case RevokeChild(childId, _) => SessionsOfChild(st.sessions, childId)
      case MarkFamily(familyId, _) => SessionsOfFamily(st.sessions, familyId)
      case _ => {};
    RevokeKeepsLineages(st.sessions, ids, op.now);
  }

  lemma StepKeepsLineages(st: State, op: Op)
    requires Lineages(st.sessions) && FreshId(st.sessions, op)
    ensures Lineages(Step(st, op).sessions)
  {
    if op.Issue? {
      IssuingKeepsLineages(st, op);
    } else if op.Rotate? {
      RotationKeepsLineages(st, op);
    } else if !op.UnmarkFamily? {
      RevokingKeepsLineages(st, op);
    }
  }

  /** In every run the links stay acyclic, injective and inside one family and principal, and a
      session is rotated exactly when it has a successor. */
  lemma {:induction false} RunKeepsLineages(st: State, ops: seq<Op>)
    requires Lineages(st.sessions) && FreshRun(st, ops)
    ensures Lineages(Run(st, ops).sessions)
    decreases ops
  {
    if ops != [] {
      StepKeepsLineages(st, ops[0]);
      RunKeepsLineages(Step(st, ops[0]), ops[1..]);
    }
  }

  /** At any moment at most one session of a lineage holds a token that can still rotate. */
  lemma OneRotatableTokenPerLineage(st: State, t: RefreshToken, u: RefreshToken, now: Time, later: Time)
    requires Lineages(st.sessions) && SameLineage(st.sessions, t.sid, u.sid)
    requires Judge(st, true, t, now) == Accepted && Judge(st, true, u, later) == Accepted
    ensures t == u
  {
    LineageHasOneTail(st.sessions, t.sid);
    assert SameLineage(st.sessions, t.sid, t.sid);
  }

  // ---- what lasts ----

  /** A session that can never rotate again. */
  predicate Spent(ss: Sessions, id: string) {
    id in ss && (ss[id].rotatedAt.Some? || ss[id].revokedAt.Some?)
  }

  predicate Revoked(ss: Sessions, id: string) {
    id in ss && ss[id].revokedAt.Some?
  }

  lemma StepKeepsSpent(st: State, op: Op, id: string)
    requires FreshId(st.sessions, op)
    ensures Spent(st.sessions, id) ==> Spent(Step(st, op).sessions, id)
    ensures Revoked(st.sessions, id) ==> Revoked(Step(st, op).sessions, id)
  {
    if op.Rotate? && Judge(st, op.verified, op.token, op.now) == Replayed {
      assert Step(st, op).sessions.Keys == st.sessions.Keys;
    }
  }

  lemma {:induction false} RunKeepsSpent(st: State, ops: seq<Op>, id: string)
    requires FreshRun(st, ops)
    ensures Spent(st.sessions, id) ==> Spent(Run(st, ops).sessions, id)
    ensures Revoked(st.sessions, id) ==> Revoked(Run(st, ops).sessions, id)
    decreases ops
  {
    if ops != [] {
      StepKeepsSpent(st, ops[0], id);
      RunKeepsSpent(Step(st, ops[0]), ops[1..], id);
    }
  }

  /** A token that was accepted once is never accepted again. */
  lemma TokenRotatesOnce(st: State, op: Op, ops: seq<Op>, verified: bool, token: RefreshToken, now: Time)
    requires op.Rotate? && token.sid == op.token.sid
    requires Judge(st, op.verified, op.token, op.now) == Accepted
    requires FreshRun(st, [op] + ops)
    ensures Judge(Run(Step(st, op), ops), verified, token, now) != Accepted
  {
    assert ([op] + ops)[1..] == ops;
    assert Spent(Step(st, op).sessions, op.token.sid);
    RunKeepsSpent(Step(st, op), ops, op.token.sid);
  }

  // ---- what a token is worth ----

  /** Each verdict says which check fails first. */
  lemma VerdictIsFirstFailure(st: State, verified: bool, token: RefreshToken, now: Time)
    ensures var v, live := Judge(st, verified, token, now),
                           token.sid in st.sessions && st.sessions[token.sid].revokedAt == None;
            && (v == InvalidToken <==> !verified)
            && (v == SessionRevoked <==> verified && !live)
            && (verified && live ==>
                  var x := st.sessions[token.sid];
                  var inTime, waiting := now <= x.expiresAt, x.familyId in st.pending;
                  && (v == SessionExpired <==> !inTime)
                  && (v == PendingDeletion <==> inTime && waiting)
                  && (v == Replayed <==> inTime && !waiting && x.rotatedAt != None)
                  && (v == WrongSecret <==> inTime && !waiting && x.rotatedAt == None && x.tokenHash != token.jti)
                  && (v == Accepted <==> inTime && !waiting && x.rotatedAt == None && x.tokenHash == token.jti))
  {
  }

  /** The token a login gets is accepted until its session expires, unless the account is pending
      deletion; no other secret is. */
  lemma IssuedTokenIsAccepted(st: State, op: Op, jti: string, later: Time)
    requires op.Issue?
    ensures Judge(Step(st, op), true, RefreshToken(op.id, jti), later) ==
              if later > op.now + st.ttl then SessionExpired
              else if op.familyId in st.pending then PendingDeletion
              else if jti == op.secret then Accepted else WrongSecret
    ensures var x := Step(st, op).sessions[op.id];
            x.familyId == op.familyId && x.principal == op.principal && x.deviceLabel == op.deviceLabel
  {
  }

  /** The token a rotation returns is accepted for a full lifetime, no other secret of that session
      is, and the presented token is a replay from then on. */
  lemma SuccessorTokenIsAccepted(st: State, op: Op, jti: string, later: Time)
    requires op.Rotate? && FreshId(st.sessions, op) && Judge(st, op.verified, op.token, op.now) == Accepted
    ensures Judge(Step(st, op), true, RefreshToken(op.newId, jti), later) ==
              if later > op.now + st.ttl then SessionExpired else if jti == op.newSecret then Accepted else WrongSecret
    ensures Judge(Step(st, op), true, op.token, later) ==
              if later > st.sessions[op.token.sid].expiresAt then SessionExpired else Replayed
  {
  }

  /** Both rows of a rotation carry its time, and the successor the device of the old one. */
  lemma RotationStamps(st: State, op: Op)
    requires op.Rotate? && FreshId(st.sessions, op) && Judge(st, op.verified, op.token, op.now) == Accepted
    ensures var was, tt := st.sessions[op.token.sid], Step(st, op).sessions;
            && op.token.sid in tt && op.newId in tt && tt.Keys == st.sessions.Keys + {op.newId}
            && tt[op.token.sid] ==
                 was.(rotatedAt := Some(op.now), lastUsedAt := Some(op.now), replacedById := Some(op.newId))
            && tt[op.newId].expiresAt == op.now + st.ttl && tt[op.newId].deviceLabel == was.deviceLabel
            && tt[op.newId].lastUsedAt == None
            && forall id :: id in st.sessions && id != op.token.sid ==> tt[id] == st.sessions[id]
  {
  }

  /** What a step does to one session that spends it: its rotation, a revocation of it, of its child
      or of its family when that is first marked, and a replay of it or of a session before it. */
  predicate Spends(st: State, op: Op, id: string)
    requires id in st.sessions
  {
    var x := st.sessions[id];
    match op
    case Issue(_, _, _, _, _, _) => false
    case Rotate(verified, token, _, _, now) =>
      var v := Judge(st, verified, token, now);
      (v == Accepted && token.sid == id) || (v == Replayed && id in Chain(st.sessions, token.sid))
    case RevokeOne(y, _) => y == id
    case RevokeChild(c, _) => x.principal.ChildOf? && x.principal.childId == c
    case MarkFamily(f, _) => x.familyId == f && f !in st.pending
    case UnmarkFamily(_) => false
  }

  /** Family, principal, secret and expiry are for good, and a session is spent by exactly those
      operations. */
  lemma StepSpendsIff(st: State, op: Op, id: string)
    requires FreshId(st.sessions, op) && id in st.sessions
    ensures id in Step(st, op).sessions
    ensures var was, x := st.sessions[id], Step(st, op).sessions[id];
            && x.familyId == was.familyId && x.principal == was.principal
            && x.tokenHash == was.tokenHash && x.expiresAt == was.expiresAt
    ensures Spent(Step(st, op).sessions, id) <==> Spent(st.sessions, id) || Spends(st, op, id)
  {
  }

  /** A family waits for deletion from its mark until the mark is taken back. */
  lemma PendingStep(st: State, op: Op, f: string)
    ensures f in Step(st, op).pending <==>
              (op.MarkFamily? && op.familyId == f) || (f in st.pending && !(op.UnmarkFamily? && op.familyId == f))
    ensures Step(st, op).ttl == st.ttl
  {
  }

  /** A revocation carries the time of the operation that made it, and no later one overwrites it. */
  lemma FirstRevocationStays(st: State, op: Op, id: string)
    requires FreshId(st.sessions, op) && id in st.sessions
    ensures id in Step(st, op).sessions
    ensures var was, x := st.sessions[id].revokedAt, Step(st, op).sessions[id].revokedAt;
            if was.Some? then x == was else x == None || (!op.UnmarkFamily? && x == Some(op.now))
  {
  }

  ghost predicate NeverSpent(st: State, ops: seq<Op>, id: string)
    requires id in st.sessions && FreshRun(st, ops)
    decreases ops
  {
    ops == []
    || (StepSpendsIff(st, ops[0], id); !Spends(st, ops[0], id) && NeverSpent(Step(st, ops[0]), ops[1..], id))
  }

  /** Over any run: a token that could rotate at its start can at its end exactly when nothing spent
      its session, the session has not expired and its account is not pending deletion. */
  lemma {:induction false} TokenAcceptedIff(st: State, ops: seq<Op>, token: RefreshToken, now: Time)
    requires FreshRun(st, ops) && token.sid in st.sessions && !Spent(st.sessions, token.sid)
    ensures Judge(Run(st, ops), true, token, now) == Accepted <==>
              && NeverSpent(st, ops, token.sid)
              && token.jti == st.sessions[token.sid].tokenHash && now <= st.sessions[token.sid].expiresAt
              && st.sessions[token.sid].familyId !in Run(st, ops).pending
    decreases ops
  {
    if ops != [] {
      StepSpendsIff(st, ops[0], token.sid);
      if Spends(st, ops[0], token.sid) {
        RunKeepsSpent(Step(st, ops[0]), ops[1..], token.sid);
      } else {
        TokenAcceptedIff(Step(st, ops[0]), ops[1..], token, now);
      }
    }
  }

  // ---- replay ----

  /** No session of the lineage of `x` can rotate. */
  ghost predicate LineageSpent(ss: Sessions, x: string) {
    x in ss && forall y :: SameLineage(ss, x, y) ==> Spent(ss, y)
  }

  /** Adding a fresh row nobody links to leaves every other chain as it was. */
  lemma {:induction false} ChainIgnoresFreshRow(ss: Sessions, id: string, s: Session, a: string)
    requires id !in ss && a != id
    requires forall x, y :: Linked(ss, x, y) ==> y != id
    ensures Chain(ss[id := s], a) == Chain(ss, a)
    decreases ss.Keys
  {
    if a in ss && ss[a].replacedById.Some? {
      var n := ss[a].replacedById.value;
      assert Linked(ss, a, n);
      assert forall x, y :: Linked(ss - {a}, x, y) ==> Linked(ss, x, y);
      ChainIgnoresFreshRow(ss - {a}, id, s, n);
      assert (ss - {a})[id := s] == ss[id := s] - {a};
    }
  }

  /** A rotation appends the new session to exactly the chains that reach the rotated one. */
  lemma {:induction false} RotateAppends(ss: Sessions, rank: map<string, nat>, sid: string, newId: string,
                       newSecret: string, now: Time, ttl: Time, a: string)
    requires Lineages(ss) && Ranked(ss, rank) && sid in ss && ss[sid].rotatedAt.None? && newId !in ss
    requires a in ss
    ensures Chain(RotateTable(ss, sid, newId, newSecret, now, ttl), a)
         == Chain(ss, a) + (if Reaches(ss, a, sid) then [newId] else [])
    decreases |Chain(ss, a)|
  {
    var tt := RotateTable(ss, sid, newId, newSecret, now, ttl);
    RotateKeepsLineages(ss, sid, newId, newSecret, now, ttl);
    if a == sid {
      assert Linked(tt, sid, newId);
      ChainUnfolds(tt, sid, newId);
      assert Chain(tt, newId) == [newId];
    } else if ss[a].replacedById.Some? {
      var n := ss[a].replacedById.value;
      assert Linked(ss, a, n) && Linked(tt, a, n);
      ChainUnfolds(ss, a, n);
      ChainUnfolds(tt, a, n);
      RotateAppends(ss, rank, sid, newId, newSecret, now, ttl, n);
    }
  }

  lemma RotateKeepsLineageSpent(ss: Sessions, x: string, sid: string, newId: string,
                                newSecret: string, now: Time, ttl: Time)
    requires Lineages(ss) && LineageSpent(ss, x)
    requires sid in ss && !Spent(ss, sid) && newId !in ss
    ensures LineageSpent(RotateTable(ss, sid, newId, newSecret, now, ttl), x)
  {
    var tt := RotateTable(ss, sid, newId, newSecret, now, ttl);
    var rank :| Ranked(ss, rank);
    RotateAppends(ss, rank, sid, newId, newSecret, now, ttl, x);
    assert Chain(tt, newId) == [newId];
    assert !SameLineage(ss, x, sid);
    forall y | SameLineage(tt, x, y)
      ensures Spent(tt, y)
    {
      RotateAppends(ss, rank, sid, newId, newSecret, now, ttl, y);
      assert SameLineage(ss, x, y);
    }
  }

  lemma StepKeepsLineageSpent(st: State, op: Op, x: string)
    requires Lineages(st.sessions) && FreshId(st.sessions, op) && LineageSpent(st.sessions, x)
    ensures LineageSpent(Step(st, op).sessions, x)
  {
    var ss, tt := st.sessions, Step(st, op).sessions;
    if op.Rotate? && Judge(st, op.verified, op.token, op.now) == Accepted {
      RotateKeepsLineageSpent(ss, x, op.token.sid, op.newId, op.newSecret, op.now, st.ttl);
    } else {
      forall y | SameLineage(tt, x, y)
        ensures Spent(tt, y)
      {
        if op.Issue? {
          assert Chain(tt, op.id) == [op.id];
          assert forall a, b :: Linked(ss, a, b) ==> b in ss;
          ChainIgnoresFreshRow(ss, op.id, tt[op.id], x);
          if y != op.id { ChainIgnoresFreshRow(ss, op.id, tt[op.id], y); }
        } else {
          assert tt.Keys == ss.Keys;
          ChainDependsOnLinks(ss, tt, x);
          ChainDependsOnLinks(ss, tt, y);
        }
        assert SameLineage(ss, x, y);
        StepKeepsSpent(st, op, y);
      }
    }
  }

  lemma {:induction false} RunKeepsLineageSpent(st: State, ops: seq<Op>, x: string)
    requires Lineages(st.sessions) && FreshRun(st, ops) && LineageSpent(st.sessions, x)
    ensures LineageSpent(Run(st, ops).sessions, x)
    decreases ops
  {
    if ops != [] {
      StepKeepsLineages(st, ops[0]);
      StepKeepsLineageSpent(st, ops[0], x);
      RunKeepsLineageSpent(Step(st, ops[0]), ops[1..], x);
    }
  }

  /** A replay revokes exactly the sessions from the presented one forward: a session is valid
      afterwards iff it was valid before and lies strictly before the presented one or in
      another lineage. */
  lemma ReplayRevokesForward(st: State, op: Op, y: string, now: Time)
    requires Lineages(st.sessions) && op.Rotate?
    requires Judge(st, op.verified, op.token, op.now) == Replayed
    ensures SessionValid(Step(st, op).sessions, y, now)
       <==> SessionValid(st.sessions, y, now) && !Reaches(st.sessions, op.token.sid, y)
  {
  }

  /** After a replay every session of the lineage is spent. */
  lemma ReplaySpendsLineage(st: State, op: Op)
    requires Lineages(st.sessions) && op.Rotate?
    requires Judge(st, op.verified, op.token, op.now) == Replayed
    ensures LineageSpent(Step(st, op).sessions, op.token.sid)
  {
    var ss, mid, x := st.sessions, Step(st, op).sessions, op.token.sid;
    RevokeKeepsChain(ss, Met(ss, x), op.now, x);
    forall z | SameLineage(mid, x, z)
      ensures Spent(mid, z)
    {
      RevokeKeepsChain(ss, Met(ss, x), op.now, z);
      RevokeKeepsLinks(ss, Met(ss, x), op.now, z);
      if !Reaches(ss, x, z) { ReachesSplit(ss, z, x); }
    }
  }

  lemma SpentLineageAcceptsNothing(st: State, x: string, verified: bool, token: RefreshToken, now: Time)
    requires LineageSpent(st.sessions, x) && SameLineage(st.sessions, x, token.sid)
    ensures Judge(st, verified, token, now) != Accepted
  {
    assert Spent(st.sessions, token.sid);
  }

  /** Once a replay is recognised, no token of the lineage, earlier or later, is ever accepted
      again, and every session from the presented one forward is invalid for good. */
  lemma ReplayEndsLineage(st: State, op: Op, ops: seq<Op>, y: string, verified: bool,
                          token: RefreshToken, now: Time)
    requires Lineages(st.sessions) && op.Rotate? && FreshId(st.sessions, op) && FreshRun(Step(st, op), ops)
    requires Judge(st, op.verified, op.token, op.now) == Replayed
    ensures var end := Run(Step(st, op), ops);
            && (SameLineage(end.sessions, op.token.sid, token.sid) ==>
                  Judge(end, verified, token, now) != Accepted)
            && (Reaches(st.sessions, op.token.sid, y) ==> !SessionValid(end.sessions, y, now))
  {
    var mid := Step(st, op);
    StepKeepsLineages(st, op);
    ReplaySpendsLineage(st, op);
    RunKeepsLineageSpent(mid, ops, op.token.sid);
    RunKeepsSpent(mid, ops, y);
    var end := Run(mid, ops);
    if SameLineage(end.sessions, op.token.sid, token.sid) {
      SpentLineageAcceptsNothing(end, op.token.sid, verified, token, now);
    }
  }

  // ---- the service in its own form ----

  class AuthStore {
    var sessions: Sessions
    var pending: set<string>
    const ttl: Time

    constructor (ttl: Time)
      ensures Valid() && View() == State(map[], {}, ttl)
    {
      sessions, pending := map[], {};
      this.ttl := ttl;
      new;
      assert Ranked(sessions, map[]);
    }

    ghost predicate Valid() reads this { Lineages(sessions) }

    ghost function View(): State reads this { State(sessions, pending, ttl) }

    method IsSessionValid(id: string, now: Time) returns (valid: bool)
      ensures valid <==> id in sessions && sessions[id].revokedAt.None? && now <= sessions[id].expiresAt
      ensures valid <==> SessionValid(sessions, id, now)
    {
      if id !in sessions { return false; }
      if sessions[id].revokedAt.Some? { return false; }
      if sessions[id].expiresAt < now { return false; }
      return true;
    }

    method IssueSessionPair(id: string, familyId: string, principal: Principal, secret: string,
                            deviceLabel: Option<string>, now: Time) returns (token: RefreshToken)
      requires Valid() && id !in sessions
      modifies this
      ensures Valid() && View() == Step(old(View()), Issue(id, familyId, principal, secret, deviceLabel, now))
      ensures token == RefreshToken(id, secret) && SessionValid(sessions, id, now) == (0 <= ttl)
    {
      StepKeepsLineages(View(), Issue(id, familyId, principal, secret, deviceLabel, now));
      sessions := sessions[id := FreshSession(familyId, principal, secret, now + ttl, deviceLabel)];
      return RefreshToken(id, secret);
    }

    /** The ids met on the way from `start` to the end of its chain. The walk ends because the
        links are acyclic: each session met shortens what is left of the chain. */
    method CollectLineage(start: string) returns (ids: seq<string>)
      requires Valid()
      ensures ids == Chain(sessions, start)
    {
      ids := [];
      var cursor := Some(start);
      while cursor.Some? && cursor.value in sessions
        invariant Chain(sessions, start) == ids + Rest(sessions, cursor)
        decreases |Rest(sessions, cursor)|
      {
        RestUnfolds(sessions, cursor.value);
        ids := ids + [cursor.value];
        cursor := sessions[cursor.value].replacedById;
      }
    }

    method RevokeLineage(start: string, now: Time)
      requires Valid()
      modifies this`sessions
      ensures Valid() && sessions == Revoke(old(sessions), Met(old(sessions), start), now)
    {
      var ids := CollectLineage(start);
      RevokeKeepsLineages(sessions, Met(sessions, start), now);
      if ids != [] {
        sessions := Revoke(sessions, (set x | x in ids), now);
      }
    }

    method RotateRefresh(verified: bool, token: RefreshToken, newId: string, newSecret: string, now: Time)
      returns (verdict: Verdict, next: Option<RefreshToken>)
      requires Valid() && newId !in sessions
      modifies this
      ensures Valid() && View() == Step(old(View()), Rotate(verified, token, newId, newSecret, now))
      ensures verdict == Judge(old(View()), verified, token, now)
      ensures next == if verdict == Accepted then Some(RefreshToken(newId, newSecret)) else None
    {
      ghost var before := View();
      RotationKeepsLineages(before, Rotate(verified, token, newId, newSecret, now));
      if !verified { return InvalidToken, None; }
      if token.sid !in sessions || sessions[token.sid].revokedAt.Some? { return SessionRevoked, None; }
      var session := sessions[token.sid];
      if session.expiresAt < now { return SessionExpired, None; }
      if session.familyId in pending { return PendingDeletion, None; }
      if session.rotatedAt.Some? {
        RevokeLineage(token.sid, now);
        return Replayed, None;
      }
      if session.tokenHash != token.jti { return WrongSecret, None; }
      AppendSuccessor(token.sid, newId, newSecret, now);
      assert View() == Step(before, Rotate(verified, token, newId, newSecret, now));
      return Accepted, Some(RefreshToken(newId, newSecret));
    }

    method AppendSuccessor(sid: string, newId: string, newSecret: string, now: Time)
      requires sid in sessions && newId !in sessions
      modifies this`sessions
      ensures sessions == RotateTable(old(sessions), sid, newId, newSecret, now, ttl)
    {
      var session := sessions[sid];
      sessions := sessions[newId :=
        FreshSession(session.familyId, session.principal, newSecret, now + ttl, session.deviceLabel)];
      sessions := sessions[sid := session.(rotatedAt := Some(now), replacedById := Some(newId), lastUsedAt := Some(now))];
    }

    method RevokeSession(id: string, now: Time)
      requires Valid()
      modifies this`sessions
      ensures Valid() && View() == Step(old(View()), RevokeOne(id, now))
    {
      RevokeKeepsLineages(sessions, {id}, now);
      sessions := Revoke(sessions, {id}, now);
    }

    method RevokeAllForChild(childId: string, now: Time)
      requires Valid()
      modifies this`sessions
      ensures Valid() && View() == Step(old(View()), Op.RevokeChild(childId, now))
    {
      RevokeKeepsLineages(sessions, SessionsOfChild(sessions, childId), now);
      sessions := Revoke(sessions, SessionsOfChild(sessions, childId), now);
    }
  }
}
