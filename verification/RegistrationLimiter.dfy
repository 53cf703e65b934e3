/**
 * The in-memory registration store: a fixed window of attempts per key, and the dynamic clients.
 */
module RegistrationLimiter {
  import opened Options

  type Time = int
  type Key = string

  datatype Window = Window(count: nat, expiresAtMs: Time)

  datatype RatePolicy = RatePolicy(maxAttempts: nat, maxKeys: nat, windowMs: nat)

  datatype SaveResult = Saved | Duplicate | Full

  // ---------------------------------------------------------------- one operation

  function LiveWindows(m: map<Key, Window>, now: Time): map<Key, Window> {
    map k | k in m && m[k].expiresAtMs > now :: m[k]
  }

  /** Whether an attempt is allowed, and the windows it leaves. */
  function Attempt(p: RatePolicy, m: map<Key, Window>, key: Key, now: Time): (map<Key, Window>, bool) {
    var live := LiveWindows(m, now);
    if key in live then
      if live[key].count >= p.maxAttempts then (live, false)
      else (live[key := live[key].(count := live[key].count + 1)], true)
    else if |live| >= p.maxKeys then (live, false)
    else (live[key := Window(1, now + p.windowMs)], true)
  }

  predicate Expired(expiresAtMs: Option<Time>, now: Time) {
    expiresAtMs.Some? && expiresAtMs.value <= now
  }

  function LiveClients(m: map<string, Option<Time>>, now: Time): map<string, Option<Time>> {
    map id | id in m && !Expired(m[id], now) :: m[id]
  }

  function Save(m: map<string, Option<Time>>, id: string, expiresAtMs: Option<Time>, maxClients: nat, now: Time)
    : (map<string, Option<Time>>, SaveResult)
  {
    var live := LiveClients(m, now);
    if id in live then (live, Duplicate)
    else if |live| >= maxClients then (live, Full)
    else (live[id := expiresAtMs], Saved)
  }

  class DcrRegistrationStore {
    var clients: map<string, Option<Time>>
    var rateWindows: map<Key, Window>

    constructor ()
      ensures clients == map[] && rateWindows == map[]
    {
      clients, rateWindows := map[], map[];
    }

    method PruneRateWindows(now: Time)
      modifies this`rateWindows
      ensures rateWindows == LiveWindows(old(rateWindows), now)
    {
      var left := rateWindows.Keys;
      while left != {}
        invariant left <= rateWindows.Keys <= old(rateWindows).Keys
        invariant forall k :: k in rateWindows ==> rateWindows[k] == old(rateWindows)[k]
        invariant forall k :: k in old(rateWindows) && k !in left ==>
                    (k in rateWindows <==> old(rateWindows)[k].expiresAtMs > now)
        decreases |left|
      {
        var key :| key in left;
        left := left - {key};
        if rateWindows[key].expiresAtMs <= now {
          rateWindows := rateWindows - {key};
        }
      }
      assert rateWindows == LiveWindows(old(rateWindows), now);
    }

    method ConsumeRegistrationAttempt(p: RatePolicy, key: Key, now: Time) returns (allowed: bool)
      modifies this`rateWindows
      ensures (rateWindows, allowed) == Attempt(p, old(rateWindows), key, now)
    {
      PruneRateWindows(now);
      if key in rateWindows {
        var current := rateWindows[key];
        if current.count >= p.maxAttempts {
          return false;
        }
        rateWindows := rateWindows[key := current.(count := current.count + 1)];
        return true;
      }
      if |rateWindows| >= p.maxKeys {
        return false;
      }
      rateWindows := rateWindows[key := Window(1, now + p.windowMs)];
      return true;
    }

    method GetDynamicClient(id: string, now: Time) returns (found: bool)
      modifies this`clients
      ensures found <==> id in LiveClients(old(clients), now)
      ensures clients == Looked(old(clients), id, now)
    {
      if id !in clients {
        return false;
      }
      if Expired(clients[id], now) {
        clients := clients - {id};
        return false;
      }
      return true;
    }

    method PruneClients(now: Time)
      modifies this`clients
      ensures clients == LiveClients(old(clients), now)
    {
      var left := clients.Keys;
      while left != {}
        invariant left <= clients.Keys <= old(clients).Keys
        invariant forall id :: id in clients ==> clients[id] == old(clients)[id]
        invariant forall id :: id in old(clients) && id !in left ==>
                    (id in clients <==> !Expired(old(clients)[id], now))
        decreases |left|
      {
        var id :| id in left;
        left := left - {id};
        if Expired(clients[id], now) {
          clients := clients - {id};
        }
      }
      assert clients == LiveClients(old(clients), now);
    }

    method SaveDynamicClient(id: string, expiresAtMs: Option<Time>, maxClients: nat, now: Time)
      returns (result: SaveResult)
      modifies this`clients
      ensures (clients, result) == Save(old(clients), id, expiresAtMs, maxClients, now)
    {
      PruneClients(now);
      if id in clients {
        return Duplicate;
      }
      if |clients| >= maxClients {
        return Full;
      }
      clients := clients[id := expiresAtMs];
      return Saved;
    }
  }

  // ---------------------------------------------------------------- every run of attempts

  datatype Try = Try(key: Key, now: Time)

  /** An allowed attempt on a key, and when the window it fell into was opened. */
  datatype Pass = Pass(key: Key, at: Time, since: Time)

  datatype World = World(windows: map<Key, Window>, passes: seq<Pass>)

  function Act(p: RatePolicy, w: World, t: Try): World {
    var (windows, allowed) := Attempt(p, w.windows, t.key, t.now);
    if !allowed then World(windows, w.passes)
    else World(windows, w.passes + [Pass(t.key, t.now, windows[t.key].expiresAtMs - p.windowMs)])
  }

  function ActAll(p: RatePolicy, tries: seq<Try>): World {
    if tries == [] then World(map[], []) else Act(p, ActAll(p, tries[..|tries| - 1]), tries[|tries| - 1])
  }

  /** The clock does not run backwards. */
  predicate Timely(tries: seq<Try>) {
    forall i, k :: 0 <= i < k < |tries| ==> tries[i].now <= tries[k].now
  }

  function CountSince(passes: seq<Pass>, key: Key, since: Time): nat {
    if passes == [] then 0 else
    var n := |passes| - 1;
    CountSince(passes[..n], key, since) + if passes[n].key == key && passes[n].since == since then 1 else 0
  }

  /** How many attempts on `key` were allowed from `a` to `b`, both included. */
  function AllowedBetween(passes: seq<Pass>, key: Key, a: Time, b: Time): nat {
    if passes == [] then 0 else
    var n := |passes| - 1;
    AllowedBetween(passes[..n], key, a, b) + if passes[n].key == key && a <= passes[n].at <= b then 1 else 0
  }

  /** When the window now kept for `key` was opened. */
  function OpenSince(p: RatePolicy, w: World, key: Key): Time
    requires key in w.windows
  {
    w.windows[key].expiresAtMs - p.windowMs
  }

  /** Passes lie in their windows, and windows of one key do not overlap. */
  ghost predicate Spaced(p: RatePolicy, passes: seq<Pass>) {
    && (forall i :: 0 <= i < |passes| ==> passes[i].since <= passes[i].at < passes[i].since + p.windowMs)
    && (forall i, k :: 0 <= i < k < |passes| && passes[i].key == passes[k].key ==>
          passes[i].since == passes[k].since || passes[i].since + p.windowMs <= passes[k].since)
  }

  /** A pass belongs to the window kept for its key, or to one that was over when that was opened, or by now. */
  ghost predicate Past(p: RatePolicy, w: World, now: Time) {
    forall i :: 0 <= i < |w.passes| ==>
      var pass := w.passes[i];
      if pass.key in w.windows then
        pass.since == OpenSince(p, w, pass.key) || pass.since + p.windowMs <= OpenSince(p, w, pass.key)
      else pass.since + p.windowMs <= now
  }

  /** No window has let through more than it may, and the kept counts are right. */
  ghost predicate Counted(p: RatePolicy, w: World) {
    && (forall key, since :: CountSince(w.passes, key, since) <= p.maxAttempts)
    && (forall key :: key in w.windows ==>
          CountSince(w.passes, key, OpenSince(p, w, key)) == w.windows[key].count)
  }

  ghost predicate Inv(p: RatePolicy, w: World, now: Time) {
    && Spaced(p, w.passes)
    && Past(p, w, now)
    && Counted(p, w)
    && (forall key :: key in w.windows ==> OpenSince(p, w, key) <= now)
    && |w.windows| <= p.maxKeys
  }

  lemma CountLast(passes: seq<Pass>, pass: Pass, key: Key, since: Time)
    ensures CountSince(passes + [pass], key, since)
            == CountSince(passes, key, since) + if pass.key == key && pass.since == since then 1 else 0
  {
    assert (passes + [pass])[..|passes|] == passes;
  }

  lemma {:induction false} NoneSince(passes: seq<Pass>, key: Key, since: Time)
    requires forall i :: 0 <= i < |passes| && passes[i].key == key ==> passes[i].since != since
    ensures CountSince(passes, key, since) == 0
  {
    if passes != [] {
      NoneSince(passes[..|passes| - 1], key, since);
    }
  }

  lemma {:induction false} FewerKeys(a: set<Key>, b: set<Key>)
    requires a <= b
    ensures |a| <= |b|
  {
    if a != {} {
      var k :| k in a;
      FewerKeys(a - {k}, b - {k});
    }
  }

  /** Forgetting the windows that are over. */
  lemma PruneKeepsInv(p: RatePolicy, w: World, earlier: Time, now: Time)
    requires Inv(p, w, earlier) && earlier <= now
    ensures Inv(p, w.(windows := LiveWindows(w.windows, now)), now)
  {
    hide CountSince;
    var live := LiveWindows(w.windows, now);
    assert live.Keys <= w.windows.Keys;
    FewerKeys(live.Keys, w.windows.Keys);
    assert |live| == |live.Keys| && |w.windows| == |w.windows.Keys|;
  }

  /** An attempt counted in the window that is open. */
  lemma CountKeepsInv(p: RatePolicy, w: World, key: Key, now: Time)
    requires Inv(p, w, now) && key in w.windows
    requires now < w.windows[key].expiresAtMs && w.windows[key].count < p.maxAttempts
    ensures var window := w.windows[key];
            Inv(p, World(w.windows[key := window.(count := window.count + 1)],
                         w.passes + [Pass(key, now, OpenSince(p, w, key))]), now)
  {
    hide CountSince;
    var pass := Pass(key, now, OpenSince(p, w, key));
    var windows := w.windows[key := w.windows[key].(count := w.windows[key].count + 1)];
    assert windows.Keys == w.windows.Keys;
    assert |windows| == |windows.Keys| && |w.windows| == |w.windows.Keys|;
    forall k, since
      ensures CountSince(w.passes + [pass], k, since)
              == CountSince(w.passes, k, since) + if key == k && pass.since == since then 1 else 0
    {
      CountLast(w.passes, pass, k, since);
    }
  }

  /** The first attempt of a new window. */
  lemma OpenKeepsInv(p: RatePolicy, w: World, key: Key, now: Time)
    requires Inv(p, w, now) && key !in w.windows && |w.windows| < p.maxKeys && p.windowMs > 0 && p.maxAttempts > 0
    ensures Inv(p, World(w.windows[key := Window(1, now + p.windowMs)], w.passes + [Pass(key, now, now)]), now)
  {
    hide CountSince;
    var pass := Pass(key, now, now);
    NoneSince(w.passes, key, now);
    forall k, since
      ensures CountSince(w.passes + [pass], k, since)
              == CountSince(w.passes, k, since) + if key == k && now == since then 1 else 0
    {
      CountLast(w.passes, pass, k, since);
    }
  }

  lemma ActKeepsInv(p: RatePolicy, w: World, t: Try, earlier: Time)
    requires Inv(p, w, earlier) && earlier <= t.now && p.windowMs > 0 && p.maxAttempts > 0
    ensures Inv(p, Act(p, w, t), t.now)
  {
    hide Spaced, Past, Counted;
    var live := w.(windows := LiveWindows(w.windows, t.now));
    PruneKeepsInv(p, w, earlier, t.now);
    if t.key in live.windows {
      if live.windows[t.key].count < p.maxAttempts {
        CountKeepsInv(p, live, t.key, t.now);
      }
    } else if |live.windows| < p.maxKeys {
      OpenKeepsInv(p, live, t.key, t.now);
    }
  }

  lemma {:induction false} RunKeepsInv(p: RatePolicy, tries: seq<Try>)
    requires Timely(tries) && p.windowMs > 0 && p.maxAttempts > 0
    ensures Inv(p, ActAll(p, tries), if tries == [] then 0 else tries[|tries| - 1].now)
  {
    if tries != [] {
      var n := |tries| - 1;
      RunKeepsInv(p, tries[..n]);
      if n == 0 {
        ActKeepsInv(p, World(map[], []), tries[0], tries[0].now);
      } else {
        ActKeepsInv(p, ActAll(p, tries[..n]), tries[n], tries[n - 1].now);
      }
    }
  }

  /** Passes that fall into one of two windows. */
  lemma {:induction false} TwoWindows(passes: seq<Pass>, key: Key, a: Time, b: Time, s1: Time, s2: Time)
    requires forall i :: 0 <= i < |passes| && passes[i].key == key && a <= passes[i].at <= b ==>
               passes[i].since == s1 || passes[i].since == s2
    ensures AllowedBetween(passes, key, a, b) <= CountSince(passes, key, s1) + CountSince(passes, key, s2)
  {
    if passes != [] {
      TwoWindows(passes[..|passes| - 1], key, a, b, s1, s2);
    }
  }

  lemma AtMostTwoWindows(p: RatePolicy, passes: seq<Pass>, key: Key, a: Time) returns (s1: Time, s2: Time)
    requires Spaced(p, passes)
    ensures forall i :: 0 <= i < |passes| && passes[i].key == key && a <= passes[i].at <= a + p.windowMs ==>
              passes[i].since == s1 || passes[i].since == s2
  {
    s1, s2 := 0, 0;
    if i :| 0 <= i < |passes| && passes[i].key == key && a <= passes[i].at <= a + p.windowMs {
      s1 := passes[i].since;
      if k :| 0 <= k < |passes| && passes[k].key == key && a <= passes[k].at <= a + p.windowMs
              && passes[k].since != s1
      {
        s2 := passes[k].since;
      }
    }
  }

  /**
   * Any stretch of one window's length, ends included, holds at most twice the allowed attempts of
   * a key, and there are never more live keys than the cap.
   */
  lemma AtMostTwiceTheLimit(p: RatePolicy, tries: seq<Try>, key: Key, a: Time)
    requires Timely(tries) && p.windowMs > 0 && p.maxAttempts > 0
    ensures AllowedBetween(ActAll(p, tries).passes, key, a, a + p.windowMs) <= 2 * p.maxAttempts
    ensures |ActAll(p, tries).windows| <= p.maxKeys
  {
    hide Spaced, ActAll;
    RunKeepsInv(p, tries);
    var passes := ActAll(p, tries).passes;
    var s1, s2 := AtMostTwoWindows(p, passes, key, a);
    TwoWindows(passes, key, a, a + p.windowMs, s1, s2);
  }

  /** An attempt is refused only if its key used up a window that is still open, or all keys are taken. */
  lemma RefusalIsEarned(p: RatePolicy, tries: seq<Try>, t: Try)
    requires Timely(tries + [t]) && p.windowMs > 0 && p.maxAttempts > 0
    requires !Attempt(p, ActAll(p, tries).windows, t.key, t.now).1
    ensures
      var w := ActAll(p, tries);
      || |LiveWindows(w.windows, t.now)| == p.maxKeys
      || exists since :: since <= t.now < since + p.windowMs && CountSince(w.passes, t.key, since) == p.maxAttempts
  {
    hide Spaced, Past, CountSince, ActAll;
    assert forall i :: 0 <= i < |tries| ==> (tries + [t])[i] == tries[i];
    RunKeepsInv(p, tries);
    var w := ActAll(p, tries);
    var last := if tries == [] then t.now else tries[|tries| - 1].now;
    if tries == [] {
      NothingYet(p);
    }
    assert Inv(p, w, last) && last <= t.now by {
      assert tries != [] ==> (tries + [t])[|tries| - 1].now <= (tries + [t])[|tries|].now;
    }
    PruneKeepsInv(p, w, last, t.now);
    if t.key in LiveWindows(w.windows, t.now) {
      assert CountSince(w.passes, t.key, OpenSince(p, w, t.key)) == w.windows[t.key].count;
      assert CountSince(w.passes, t.key, OpenSince(p, w, t.key)) <= p.maxAttempts;
    }
  }

  lemma NothingYet(p: RatePolicy)
    ensures forall now :: Inv(p, ActAll(p, []), now)
  {
  }

  /** The bound is reached: one attempt at the start of a stretch and one at its end. */
  lemma TwiceIsReached(windowMs: nat, key: Key)
    requires windowMs > 0
    ensures var p := RatePolicy(1, 1, windowMs);
            AllowedBetween(ActAll(p, [Try(key, 0), Try(key, windowMs)]).passes, key, 0, windowMs) == 2 * p.maxAttempts
  {
    var p := RatePolicy(1, 1, windowMs);
    var first, second := Try(key, 0), Try(key, windowMs);
    assert [first, second][..1] == [first] && [first][..0] == [];
    var w := Act(p, World(map[], []), first);
    assert LiveWindows(map[], 0) == map[];
    assert w == World(map[key := Window(1, windowMs)], [Pass(key, 0, 0)]);
    assert LiveWindows(w.windows, windowMs) == map[];
    assert Act(p, w, second).passes == [Pass(key, 0, 0), Pass(key, windowMs, windowMs)];
    assert ActAll(p, [first]) == w;
    assert ActAll(p, [first, second]) == Act(p, w, second);
    assert [Pass(key, 0, 0), Pass(key, windowMs, windowMs)][..1] == [Pass(key, 0, 0)];
    assert [Pass(key, 0, 0)][..0] == [];
    assert AllowedBetween([Pass(key, 0, 0)], key, 0, windowMs) == 1;
  }

  // ---------------------------------------------------------------- every run of saves and lookups

  datatype ClientStep = SaveClient(id: string, expiresAtMs: Option<Time>, now: Time) | Lookup(id: string, now: Time)

  /** A lookup drops the client it finds expired. */
  function Looked(m: map<string, Option<Time>>, id: string, now: Time): map<string, Option<Time>> {
    if id in m && Expired(m[id], now) then m - {id} else m
  }

  function Serve(maxClients: nat, m: map<string, Option<Time>>, s: ClientStep): map<string, Option<Time>> {
    match s
    case SaveClient(id, expiresAtMs, now) => Save(m, id, expiresAtMs, maxClients, now).0
    case Lookup(id, now) => Looked(m, id, now)
  }

  function ServeAll(maxClients: nat, m: map<string, Option<Time>>, steps: seq<ClientStep>): map<string, Option<Time>> {
    if steps == [] then m else Serve(maxClients, ServeAll(maxClients, m, steps[..|steps| - 1]), steps[|steps| - 1])
  }

  lemma LiveClientsShrink(m: map<string, Option<Time>>, now: Time)
    ensures |LiveClients(m, now)| <= |m|
  {
    var live := LiveClients(m, now);
    assert live.Keys <= m.Keys;
    FewerKeys(live.Keys, m.Keys);
    assert |live| == |live.Keys| && |m| == |m.Keys|;
  }

  lemma LookedShrinks(m: map<string, Option<Time>>, id: string, now: Time)
    ensures |Looked(m, id, now)| <= |m|
  {
    var left := Looked(m, id, now);
    assert left.Keys <= m.Keys;
    FewerKeys(left.Keys, m.Keys);
    assert |left| == |left.Keys| && |m| == |m.Keys|;
  }

  /** Over every run of saves and lookups the table keeps within its cap. */
  lemma {:induction false} ClientsStayBounded(maxClients: nat, steps: seq<ClientStep>)
    ensures |ServeAll(maxClients, map[], steps)| <= maxClients
  {
    if steps != [] {
      var before := ServeAll(maxClients, map[], steps[..|steps| - 1]);
      ClientsStayBounded(maxClients, steps[..|steps| - 1]);
      match steps[|steps| - 1]
      case SaveClient(_, _, now) => LiveClientsShrink(before, now);
      case Lookup(id, now) => LookedShrinks(before, id, now);
    }
  }

  /** No later save or lookup forgets, replaces or changes a client before it expires. */
  lemma {:induction false} LiveClientsStay(maxClients: nat, m: map<string, Option<Time>>, steps: seq<ClientStep>,
                                           id: string)
    requires id in m && forall i :: 0 <= i < |steps| ==> !Expired(m[id], steps[i].now)
    ensures
      var n := ServeAll(maxClients, m, steps);
      id in n && n[id] == m[id]
  {
    if steps != [] {
      LiveClientsStay(maxClients, m, steps[..|steps| - 1], id);
    }
  }

  /** The clients that have no end or have not reached it. */
  ghost function Unexpired(m: map<string, Option<Time>>, now: Time): set<string> {
    set id | id in m && (m[id] == None || now < m[id].value)
  }

  lemma LiveClientsAre(m: map<string, Option<Time>>, now: Time)
    ensures LiveClients(m, now).Keys == Unexpired(m, now)
    ensures |LiveClients(m, now)| == |Unexpired(m, now)|
  {
    var live := LiveClients(m, now);
    assert live.Keys == Unexpired(m, now);
    assert |live| == |live.Keys|;
  }

  /**
   * A save succeeds exactly if the identifier is free and there is room, and then the client is on record
   * until its end. Every unexpired client stays on record as it was, and no other is left.
   */
  lemma SavesExactly(m: map<string, Option<Time>>, id: string, expiresAtMs: Option<Time>, maxClients: nat, now: Time)
    ensures
      var (n, result) := Save(m, id, expiresAtMs, maxClients, now);
      var live := Unexpired(m, now);
      && result == (if id in live then Duplicate else if |live| >= maxClients then Full else Saved)
      && n.Keys == (if result == Saved then live + {id} else live)
      && (result == Saved ==> n[id] == expiresAtMs)
      && forall other :: other in live ==> n[other] == m[other]
  {
    LiveClientsAre(m, now);
  }

  /** A lookup finds exactly the unexpired clients, and forgets the one it looks for if that has expired. */
  lemma FindsExactly(m: map<string, Option<Time>>, id: string, now: Time)
    ensures id in LiveClients(m, now) <==> id in m && (m[id] == None || now < m[id].value)
    ensures
      var n := Looked(m, id, now);
      && (id in n <==> id in Unexpired(m, now))
      && forall other :: other in m && other != id ==> other in n && n[other] == m[other]
  {
  }

  /**
   * An attempt counts in its key's open window while that has attempts left; without an open window it
   * opens one, for the window's length, unless all keys are taken. Nothing else changes but that closed
   * windows go.
   */
  lemma AttemptsExactly(p: RatePolicy, m: map<Key, Window>, key: Key, now: Time)
    ensures
      var (n, allowed) := Attempt(p, m, key, now);
      var live := set k | k in m && now < m[k].expiresAtMs;
      && (allowed <==> if key in live then m[key].count < p.maxAttempts else |live| < p.maxKeys)
      && n.Keys == (if allowed then live + {key} else live)
      && (allowed ==>
            n[key] == if key in live then Window(m[key].count + 1, m[key].expiresAtMs) else Window(1, now + p.windowMs))
      && forall k :: k in live && (k != key || !allowed) ==> n[k] == m[k]
  {
    var windows := LiveWindows(m, now);
    assert windows.Keys == set k | k in m && now < m[k].expiresAtMs;
    assert |windows| == |windows.Keys|;
  }
}
