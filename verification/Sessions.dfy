/**
 * The session table of the generic wrapper: a global cap, a cap per principal, idle expiry, and
 * eviction of a principal's own least recently used session.
 */
module Sessions {
  import opened Options

  type Time = int

  datatype Session = Session(id: string, principal: string, lastUsedAt: Time, busy: bool)

  datatype Limits = Limits(maxSessions: nat, maxSessionsPerPrincipal: nat, idleTtlMs: nat)

  datatype Outcome = Issued | AlreadyIssued | GlobalLimitReached | PrincipalLimitReached

  // ---------------------------------------------------------------- one operation

  predicate Idle(l: Limits, now: Time, s: Session) {
    !s.busy && now - s.lastUsedAt >= l.idleTtlMs
  }

  function Awake(l: Limits, now: Time): Session -> bool {
    (s: Session) => !Idle(l, now, s)
  }

  function Other(id: string, principal: string): Session -> bool {
    (s: Session) => s.id != id || s.principal != principal
  }

  /** Sessions stay in the order of issue. */
  function Filter(sessions: seq<Session>, keep: Session -> bool): seq<Session> {
    if sessions == [] then [] else
    var n := |sessions| - 1;
    if keep(sessions[n]) then Filter(sessions[..n], keep) + [sessions[n]] else Filter(sessions[..n], keep)
  }

  function Pruned(l: Limits, sessions: seq<Session>, now: Time): seq<Session> {
    Filter(sessions, Awake(l, now))
  }

  function Owned(sessions: seq<Session>, principal: string): nat {
    if sessions == [] then 0 else
    Owned(sessions[..|sessions| - 1], principal) + if sessions[|sessions| - 1].principal == principal then 1 else 0
  }

  predicate Evictable(s: Session, principal: string) {
    s.principal == principal && !s.busy
  }

  /** `i` is the least recently used of a principal's sessions that are not busy, the first of several. */
  predicate IsLeastRecent(sessions: seq<Session>, principal: string, i: nat) {
    && i < |sessions|
    && Evictable(sessions[i], principal)
    && (forall k :: 0 <= k < |sessions| && Evictable(sessions[k], principal) ==>
          sessions[i].lastUsedAt <= sessions[k].lastUsedAt)
    && (forall k :: 0 <= k < i && Evictable(sessions[k], principal) ==> sessions[i].lastUsedAt < sessions[k].lastUsedAt)
  }

  function LeastRecent(sessions: seq<Session>, principal: string): (r: Option<nat>)
    ensures r.None? <==> forall k :: 0 <= k < |sessions| ==> !Evictable(sessions[k], principal)
    ensures r.Some? ==> IsLeastRecent(sessions, principal, r.value)
  {
    if sessions == [] then None else
    var n := |sessions| - 1;
    var r := LeastRecent(sessions[..n], principal);
    if !Evictable(sessions[n], principal) || (r.Some? && sessions[r.value].lastUsedAt <= sessions[n].lastUsedAt) then r
    else Some(n)
  }

  function Without(sessions: seq<Session>, i: nat): seq<Session>
    requires i < |sessions|
  {
    sessions[..i] + sessions[i + 1..]
  }

  predicate Has(sessions: seq<Session>, id: string) {
    exists i :: 0 <= i < |sessions| && sessions[i].id == id
  }

  function RoomFor(l: Limits, sessions: seq<Session>, id: string, principal: string): (seq<Session>, Outcome) {
    if Has(sessions, id) then (sessions, AlreadyIssued) else
    var full := Owned(sessions, principal) >= l.maxSessionsPerPrincipal;
    var victim := LeastRecent(sessions, principal);
    if full && victim.Some? then (Without(sessions, victim.value), Issued)
    else if |sessions| >= l.maxSessions then (sessions, GlobalLimitReached)
    else if full then (sessions, PrincipalLimitReached)
    else (sessions, Issued)
  }

  function Issue(l: Limits, sessions: seq<Session>, id: string, principal: string, now: Time): (seq<Session>, Outcome) {
    var (left, outcome) := RoomFor(l, Pruned(l, sessions, now), id, principal);
    (if outcome.Issued? then left + [Session(id, principal, now, false)] else left, outcome)
  }

  function UsedAt(now: Time): Session -> Session {
    (s: Session) => s.(lastUsedAt := now)
  }

  function SetBusy(busy: bool): Session -> Session {
    (s: Session) => s.(busy := busy)
  }

  /** Changes the session with this identifier, if it is there. */
  function Changed(sessions: seq<Session>, id: string, f: Session -> Session): seq<Session> {
    seq(|sessions|, i requires 0 <= i < |sessions| => if sessions[i].id == id then f(sessions[i]) else sessions[i])
  }

  function Closed(sessions: seq<Session>, id: string, principal: string): seq<Session> {
    Filter(sessions, Other(id, principal))
  }

  class SessionTable {
    const limits: Limits
    var sessions: seq<Session>

    constructor (limits: Limits)
      ensures this.limits == limits && sessions == []
    {
      this.limits := limits;
      sessions := [];
    }

    method PruneIdle(now: Time)
      modifies this
      ensures sessions == Pruned(limits, old(sessions), now)
    {
      var i, left := 0, [];
      while i < |sessions|
        invariant 0 <= i <= |sessions|
        invariant left == Filter(sessions[..i], Awake(limits, now))
      {
        assert sessions[..i + 1][..i] == sessions[..i];
        if sessions[i].busy || now - sessions[i].lastUsedAt < limits.idleTtlMs {
          left := left + [sessions[i]];
        }
        i := i + 1;
      }
      assert sessions[..i] == sessions;
      sessions := left;
    }

    method MakeRoomForSession(id: string, principal: string) returns (outcome: Outcome)
      modifies this
      ensures (sessions, outcome) == RoomFor(limits, old(sessions), id, principal)
    {
      if Has(sessions, id) {
        return AlreadyIssued;
      }
      var principalSessions := 0;
      var leastRecentlyUsed: Option<nat> := None;
      for i := 0 to |sessions|
        invariant sessions == old(sessions)
        invariant principalSessions == Owned(sessions[..i], principal)
        invariant leastRecentlyUsed == LeastRecent(sessions[..i], principal)
      {
        assert sessions[..i + 1][..i] == sessions[..i];
        if sessions[i].principal != principal {
          continue;
        }
        principalSessions := principalSessions + 1;
        if !sessions[i].busy
           && (leastRecentlyUsed.None? || sessions[i].lastUsedAt < sessions[leastRecentlyUsed.value].lastUsedAt) {
          leastRecentlyUsed := Some(i);
        }
      }
      assert sessions[..|sessions|] == sessions;
      if principalSessions >= limits.maxSessionsPerPrincipal && leastRecentlyUsed.Some? {
        sessions := Without(sessions, leastRecentlyUsed.value);
        return Issued;
      }
      if |sessions| >= limits.maxSessions {
        return GlobalLimitReached;
      }
      if principalSessions >= limits.maxSessionsPerPrincipal {
        return PrincipalLimitReached;
      }
      return Issued;
    }

    method IssueSession(id: string, principal: string, now: Time) returns (outcome: Outcome)
      modifies this
      ensures (sessions, outcome) == Issue(limits, old(sessions), id, principal, now)
    {
      PruneIdle(now);
      outcome := MakeRoomForSession(id, principal);
      if outcome.Issued? {
        sessions := sessions + [Session(id, principal, now, false)];
      }
    }
  }

  // ---------------------------------------------------------------- every run

  datatype Step =
    | Ask(id: string, principal: string, now: Time)
    | Use(id: string, now: Time)
    | Occupy(id: string, busy: bool)
    | Close(id: string, principal: string)
    | Reap(now: Time)

  function Act(l: Limits, sessions: seq<Session>, s: Step): seq<Session> {
    match s
    case Ask(id, principal, now) => Issue(l, sessions, id, principal, now).0
    case Use(id, now) => Changed(sessions, id, UsedAt(now))
    case Occupy(id, busy) => Changed(sessions, id, SetBusy(busy))
    case Close(id, principal) => Closed(sessions, id, principal)
    case Reap(now) => Pruned(l, sessions, now)
  }

  function ActAll(l: Limits, steps: seq<Step>): seq<Session> {
    if steps == [] then [] else Act(l, ActAll(l, steps[..|steps| - 1]), steps[|steps| - 1])
  }

  ghost predicate DistinctIds(sessions: seq<Session>) {
    forall i, k :: 0 <= i < k < |sessions| ==> sessions[i].id != sessions[k].id
  }

  ghost predicate Bounded(l: Limits, sessions: seq<Session>) {
    && |sessions| <= l.maxSessions
    && (forall p :: Owned(sessions, p) <= l.maxSessionsPerPrincipal)
    && DistinctIds(sessions)
  }

  lemma OwnedLast(sessions: seq<Session>, s: Session, p: string)
    ensures Owned(sessions + [s], p) == Owned(sessions, p) + if s.principal == p then 1 else 0
  {
    assert (sessions + [s])[..|sessions|] == sessions;
  }

  lemma {:induction false} OwnedJoins(a: seq<Session>, b: seq<Session>, p: string)
    ensures Owned(a + b, p) == Owned(a, p) + Owned(b, p)
  {
    if b == [] {
      assert a + b == a;
    } else {
      var n := |b| - 1;
      OwnedJoins(a, b[..n], p);
      assert (a + b)[..|a| + n] == a + b[..n];
    }
  }

  lemma {:induction false} FilterShrinks(sessions: seq<Session>, keep: Session -> bool, p: string)
    ensures |Filter(sessions, keep)| <= |sessions|
    ensures Owned(Filter(sessions, keep), p) <= Owned(sessions, p)
    ensures forall s :: s in Filter(sessions, keep) <==> s in sessions && keep(s)
  {
    if sessions != [] {
      var n := |sessions| - 1;
      FilterShrinks(sessions[..n], keep, p);
      OwnedLast(Filter(sessions[..n], keep), sessions[n], p);
      assert sessions == sessions[..n] + [sessions[n]];
    }
  }

  lemma {:induction false} FilterKeepsDistinct(sessions: seq<Session>, keep: Session -> bool)
    requires DistinctIds(sessions)
    ensures DistinctIds(Filter(sessions, keep))
  {
    if sessions != [] {
      var n := |sessions| - 1;
      FilterKeepsDistinct(sessions[..n], keep);
      FilterShrinks(sessions[..n], keep, "");
      var f := Filter(sessions[..n], keep);
      forall i | 0 <= i < |f|
        ensures f[i].id != sessions[n].id
      {
        assert f[i] in sessions[..n];
      }
    }
  }

  lemma FilterStaysBounded(l: Limits, sessions: seq<Session>, keep: Session -> bool)
    requires Bounded(l, sessions)
    ensures Bounded(l, Filter(sessions, keep))
  {
    hide Filter, Owned;
    FilterKeepsDistinct(sessions, keep);
    forall p
      ensures Owned(Filter(sessions, keep), p) <= l.maxSessionsPerPrincipal
    {
      FilterShrinks(sessions, keep, p);
    }
    FilterShrinks(sessions, keep, "");
  }

  lemma WithoutOwned(sessions: seq<Session>, i: nat, p: string)
    requires i < |sessions|
    ensures Owned(Without(sessions, i), p) == Owned(sessions, p) - if sessions[i].principal == p then 1 else 0
  {
    OwnedJoins(sessions[..i], sessions[i + 1..], p);
    OwnedJoins(sessions[..i], [sessions[i]] + sessions[i + 1..], p);
    OwnedJoins([sessions[i]], sessions[i + 1..], p);
    OwnedLast([], sessions[i], p);
    assert [] + [sessions[i]] == [sessions[i]];
    assert sessions == sessions[..i] + ([sessions[i]] + sessions[i + 1..]);
  }

  lemma IssueStaysBounded(l: Limits, sessions: seq<Session>, id: string, principal: string, now: Time)
    requires Bounded(l, sessions)
    ensures Bounded(l, Issue(l, sessions, id, principal, now).0)
  {
    hide Filter, Owned, LeastRecent;
    var pruned := Pruned(l, sessions, now);
    FilterStaysBounded(l, sessions, Awake(l, now));
    var (left, outcome) := RoomFor(l, pruned, id, principal);
    if outcome.Issued? {
      var s := Session(id, principal, now, false);
      forall p
        ensures Owned(left + [s], p) <= l.maxSessionsPerPrincipal
      {
        OwnedLast(left, s, p);
        if left != pruned {
          WithoutOwned(pruned, LeastRecent(pruned, principal).value, p);
        }
      }
    }
  }

  lemma {:induction false} ChangedOwned(sessions: seq<Session>, id: string, f: Session -> Session, p: string)
    requires forall s :: f(s).principal == s.principal
    ensures Owned(Changed(sessions, id, f), p) == Owned(sessions, p)
  {
    if sessions != [] {
      var n := |sessions| - 1;
      ChangedOwned(sessions[..n], id, f, p);
      assert Changed(sessions, id, f)[..n] == Changed(sessions[..n], id, f);
    }
  }

  lemma ChangedStaysBounded(l: Limits, sessions: seq<Session>, id: string, f: Session -> Session)
    requires Bounded(l, sessions) && forall s :: f(s).principal == s.principal && f(s).id == s.id
    ensures Bounded(l, Changed(sessions, id, f))
  {
    hide Owned;
    forall p
      ensures Owned(Changed(sessions, id, f), p) <= l.maxSessionsPerPrincipal
    {
      ChangedOwned(sessions, id, f, p);
    }
  }

  /** Over every sequence of operations the table keeps both caps. */
  lemma {:induction false} SessionsStayBounded(l: Limits, steps: seq<Step>)
    ensures Bounded(l, ActAll(l, steps))
  {
    hide Bounded, Filter, Issue;
    if steps == [] {
      EmptyIsBounded(l);
    } else {
      var before := ActAll(l, steps[..|steps| - 1]);
      SessionsStayBounded(l, steps[..|steps| - 1]);
      match steps[|steps| - 1] {
        case Ask(id, principal, now) => IssueStaysBounded(l, before, id, principal, now);
        case Use(id, now) => ChangedStaysBounded(l, before, id, UsedAt(now));
        case Occupy(id, busy) => ChangedStaysBounded(l, before, id, SetBusy(busy));
        case Close(id, principal) => FilterStaysBounded(l, before, Other(id, principal));
        case Reap(now) => FilterStaysBounded(l, before, Awake(l, now));
      }
    }
  }

  lemma EmptyIsBounded(l: Limits)
    ensures Bounded(l, [])
  {
  }

  // ---------------------------------------------------------------- whom an issue removes

  lemma WithoutKeepsOthers(sessions: seq<Session>, i: nat, k: nat)
    requires i < |sessions| && k < |sessions|
    ensures k != i ==> sessions[k] in Without(sessions, i)
  {
    if k != i {
      assert Without(sessions, i)[if k < i then k else k - 1] == sessions[k];
    }
  }

  /**
   * A session that an issue removes was idle, or it is the least recently used session of the same
   * principal, not busy, and the principal was at its cap. A refusal removes idle sessions only.
   */
  lemma IssueRemovesOnly(l: Limits, sessions: seq<Session>, id: string, principal: string, now: Time, s: Session)
    requires s in sessions && s !in Issue(l, sessions, id, principal, now).0
    ensures var kept := Pruned(l, sessions, now);
            || Idle(l, now, s)
            || (&& Issue(l, sessions, id, principal, now).1.Issued?
                && Owned(kept, principal) >= l.maxSessionsPerPrincipal
                && exists i: nat :: IsLeastRecent(kept, principal, i) && kept[i] == s)
  {
    hide Filter, Owned, LeastRecent;
    var kept := Pruned(l, sessions, now);
    FilterShrinks(sessions, Awake(l, now), "");
    if !Idle(l, now, s) {
      var k :| 0 <= k < |kept| && kept[k] == s;
      var victim := LeastRecent(kept, principal);
      assert victim.Some?;
      WithoutKeepsOthers(kept, victim.value, k);
    }
  }

  /** Only idle expiry ever takes a session of another principal. */
  lemma OthersLoseOnlyIdleSessions(l: Limits, sessions: seq<Session>, id: string, principal: string, now: Time,
                                   s: Session)
    requires s in sessions && s.principal != principal && !Idle(l, now, s)
    ensures s in Issue(l, sessions, id, principal, now).0
  {
    hide Issue, Pruned, Owned;
    if s !in Issue(l, sessions, id, principal, now).0 {
      IssueRemovesOnly(l, sessions, id, principal, now, s);
      assert false;
    }
  }

  /** An identifier in use, a busy principal at its cap, and a full table are refused, and nothing else. */
  lemma IssueRefusesExactly(l: Limits, sessions: seq<Session>, id: string, principal: string, now: Time)
    ensures var kept := Pruned(l, sessions, now);
            var full := Owned(kept, principal) >= l.maxSessionsPerPrincipal;
            var evictable := exists k :: 0 <= k < |kept| && Evictable(kept[k], principal);
            Issue(l, sessions, id, principal, now).1.Issued?
            <==> !Has(kept, id) && if full then evictable else |kept| < l.maxSessions
  {
  }

  // ---------------------------------------------------------------- every operation, as a set of sessions

  ghost function Members(sessions: seq<Session>): set<Session> {
    set s | s in sessions
  }

  /** The sessions in use, or used less than the lifetime ago. */
  ghost function Live(l: Limits, sessions: seq<Session>, now: Time): set<Session> {
    set s | s in sessions && (s.busy || now < s.lastUsedAt + l.idleTtlMs)
  }

  lemma PrunedIsLive(l: Limits, sessions: seq<Session>, now: Time)
    ensures Members(Pruned(l, sessions, now)) == Live(l, sessions, now)
  {
    FilterShrinks(sessions, Awake(l, now), "");
  }

  ghost function MembersOf(sessions: seq<Session>, p: string): set<Session> {
    set s | s in sessions && s.principal == p
  }

  lemma MembersLast(sessions: seq<Session>, last: Session, p: string)
    ensures Members(sessions + [last]) == Members(sessions) + {last}
    ensures
      MembersOf(sessions + [last], p) == MembersOf(sessions, p) + if last.principal == p then {last} else {}
  {
  }

  lemma {:induction false} MembersCount(sessions: seq<Session>, p: string)
    requires DistinctIds(sessions)
    ensures |Members(sessions)| == |sessions|
    ensures |MembersOf(sessions, p)| == Owned(sessions, p)
  {
    if sessions != [] {
      var n := |sessions| - 1;
      var last := sessions[n];
      MembersCount(sessions[..n], p);
      assert last !in Members(sessions[..n]) && last !in MembersOf(sessions[..n], p);
      assert sessions == sessions[..n] + [last];
      hide Members, MembersOf;
      MembersLast(sessions[..n], last, p);
    }
  }

  lemma WithoutMembers(sessions: seq<Session>, i: nat)
    requires i < |sessions| && DistinctIds(sessions)
    ensures Members(Without(sessions, i)) == Members(sessions) - {sessions[i]}
  {
    forall k | 0 <= k < |sessions|
      ensures k != i ==> sessions[k] in Without(sessions, i)
    {
      WithoutKeepsOthers(sessions, i, k);
    }
  }

  /** Reaping leaves exactly the live sessions, as they are; so does what another principal asks for. */
  lemma LiveSessionsStay(l: Limits, sessions: seq<Session>, now: Time)
    ensures Members(Act(l, sessions, Reap(now))) == Live(l, sessions, now)
    ensures forall id, principal, s: Session :: s.principal != principal ==>
              (s in Act(l, sessions, Ask(id, principal, now)) <==> s in Live(l, sessions, now))
  {
    PrunedIsLive(l, sessions, now);
    FilterShrinks(sessions, Awake(l, now), "");
    forall id, principal, s: Session | s.principal != principal
      ensures s in Act(l, sessions, Ask(id, principal, now)) <==> s in Live(l, sessions, now)
    {
      hide Filter, Owned, LeastRecent;
      if s in Live(l, sessions, now) {
        OthersLoseOnlyIdleSessions(l, sessions, id, principal, now, s);
      }
    }
  }

  ghost function PartOf(live: set<Session>, principal: string): set<Session> {
    set s | s in live && s.principal == principal
  }

  /** The least recently used of the principal's sessions that are not busy. */
  ghost predicate MakesWay(live: set<Session>, principal: string, v: Session) {
    && v in PartOf(live, principal)
    && !v.busy
    && forall s :: s in PartOf(live, principal) && !s.busy ==> v.lastUsedAt <= s.lastUsedAt
  }

  /**
   * A principal below its cap is issued a session while the table has room. One at its cap is issued a
   * session in place of its least recently used one that is not busy. Every other request, and one for an
   * identifier in use, is refused and leaves the live sessions.
   */
  ghost predicate Answers(l: Limits, live: set<Session>, issued: Session, left: set<Session>, outcome: Outcome) {
    var mine := PartOf(live, issued.principal);
    if exists s :: s in live && s.id == issued.id then outcome == AlreadyIssued && left == live
    else if |mine| >= l.maxSessionsPerPrincipal && exists s :: s in mine && !s.busy then
      outcome == Issued && exists v :: MakesWay(live, issued.principal, v) && left == live - {v} + {issued}
    else if |live| >= l.maxSessions then outcome == GlobalLimitReached && left == live
    else if |mine| >= l.maxSessionsPerPrincipal then outcome == PrincipalLimitReached && left == live
    else outcome == Issued && left == live + {issued}
  }

  lemma VictimMakesWay(kept: seq<Session>, principal: string)
    ensures
      var victim := LeastRecent(kept, principal);
      && (victim.Some? <==> exists s :: s in MembersOf(kept, principal) && !s.busy)
      && (victim.Some? ==> MakesWay(Members(kept), principal, kept[victim.value]))
  {
    hide LeastRecent;
    assert forall s :: s in kept <==> s in Members(kept);
  }

  lemma MembersAre(kept: seq<Session>, principal: string, id: string)
    ensures PartOf(Members(kept), principal) == MembersOf(kept, principal)
    ensures Has(kept, id) <==> exists s :: s in Members(kept) && s.id == id
  {
  }

  lemma RoomAnswers(l: Limits, kept: seq<Session>, issued: Session)
    requires DistinctIds(kept)
    ensures
      var (left, outcome) := RoomFor(l, kept, issued.id, issued.principal);
      Answers(l, Members(kept), issued, if outcome.Issued? then Members(left + [issued]) else Members(left), outcome)
  {
    hide Members, MembersOf, PartOf, MakesWay, Owned, LeastRecent, Has, Without, DistinctIds;
    var principal := issued.principal;
    MembersCount(kept, principal);
    MembersAre(kept, principal, issued.id);
    VictimMakesWay(kept, principal);
    MembersLast(RoomFor(l, kept, issued.id, principal).0, issued, principal);
    if LeastRecent(kept, principal).Some? {
      WithoutMembers(kept, LeastRecent(kept, principal).value);
    }
  }

  /** Over every run, each request is answered so from the live sessions. */
  lemma AskedExactly(l: Limits, steps: seq<Step>, id: string, principal: string, now: Time)
    ensures
      var sessions := ActAll(l, steps);
      Answers(l, Live(l, sessions, now), Session(id, principal, now, false),
              Members(ActAll(l, steps + [Ask(id, principal, now)])), Issue(l, sessions, id, principal, now).1)
  {
    hide Answers, Filter, RoomFor;
    var sessions := ActAll(l, steps);
    assert (steps + [Ask(id, principal, now)])[..|steps|] == steps;
    SessionsStayBounded(l, steps);
    PrunedIsLive(l, sessions, now);
    FilterKeepsDistinct(sessions, Awake(l, now));
    RoomAnswers(l, Pruned(l, sessions, now), Session(id, principal, now, false));
  }

  /** The other operations touch the session they name and nothing else. */
  lemma OthersTouchOne(l: Limits, sessions: seq<Session>, id: string, principal: string, now: Time, busy: bool, i: nat)
    requires i < |sessions|
    ensures
      var was := sessions[i];
      var used, occupied := Act(l, sessions, Use(id, now)), Act(l, sessions, Occupy(id, busy));
      && |used| == |sessions|
      && |occupied| == |sessions|
      && used[i] == (if was.id == id then Session(id, was.principal, now, was.busy) else was)
      && occupied[i] == (if was.id == id then Session(id, was.principal, was.lastUsedAt, busy) else was)
      && (was in Act(l, sessions, Close(id, principal)) <==> !(was.id == id && was.principal == principal))
  {
    FilterShrinks(sessions, Other(id, principal), "");
  }
}
