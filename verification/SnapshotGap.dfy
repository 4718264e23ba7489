/** A run in which a timed-out refresh shortens the freshness of a newer image. */
module SnapshotGap {
  import opened Wrappers
  import opened SnapshotStore
  import opened SnapshotCache
  import opened SnapshotProtocol
  import opened SnapshotLimits

  /** A cache that knows one key at most, nothing cancelled. */
  ghost predicate Shape(s: State, k: Key, e: Option<Entry>, registered: map<Key, nat>, next: nat,
                        lock: Holder, requests: map<nat, Request>, refreshes: map<nat, Refresh>) {
    && s.lim.maxEntries >= 1
    && s.store == Store(if e.Some? then Cache([k], map[k := e.value]) else Cache([], map[]), registered, {}, next)
    && s.lock == lock && s.requests == requests && s.refreshes == refreshes
  }

  lemma OneKey(k: Key, e: Entry, now: real)
    ensures Purge(Cache([k], map[k := e]), now) == if e.staleUntil <= now then Cache([], map[]) else Cache([k], map[k := e])
    ensures MoveToEnd(Cache([k], map[k := e]), k) == Cache([k], map[k := e])
  {
    var c := Cache([k], map[k := e]);
    assert Without([k], {k}) == [] by { assert [k][1..] == []; }
    if e.staleUntil <= now {
      assert Expired(c, now) == {k};
      assert map[k := e] - {k} == map[];
    } else {
      assert Expired(c, now) == {};
      WithoutNothing([k], {});
      assert map[k := e] - {} == map[k := e];
    }
  }

  lemma StoreFirstKey(lim: Limits, k: Key, image: Image, at: real)
    requires lim.maxEntries >= 1
    ensures Remember(Cache([], map[]), lim, k, image, at) == Cache([k], map[k := NewEntry(lim, image, at)])
  {
    assert [k][1..] == [] && Without([k], {k}) == Without([], {k}) == [];
    PopNothing(Cache([k], map[k := NewEntry(lim, image, at)]));
  }

  lemma CoolOneKey(lim: Limits, k: Key, e: Entry, prior: Entry, at: real)
    ensures CoolDown(Cache([k], map[k := e]), lim, k, prior, at) ==
      Cache([k], map[k := Entry(at + lim.failureTtl, prior.staleUntil, prior.image)])
  {
    assert [k][1..] == [] && Without([k], {k}) == Without([], {k}) == [];
  }

  // ---------------------------------------------------------------- single steps on that shape

  lemma MissStep(s: State, k: Key, e: Option<Entry>, reg: map<Key, nat>, n: nat, lock: Holder,
                 rq: map<nat, Request>, rf: map<nat, Refresh>, id: nat)
    requires Shape(s, k, e, reg, n, lock, rq, rf) && id !in rq && (e.Some? ==> e.value.staleUntil <= s.now)
    ensures Shape(Next(s, Get(id, k)), k, None, reg, n, lock, rq[id := AwaitingLock(k)], rf)
    ensures SameClock(s, Next(s, Get(id, k)))
  {
    if e.Some? { OneKey(k, e.value, s.now); }
  }

  predicate SameClock(a: State, b: State) {
    a.now == b.now && a.lim == b.lim
  }

  lemma StaleStep(s: State, k: Key, e: Entry, n: nat, lock: Holder, rq: map<nat, Request>, rf: map<nat, Refresh>, id: nat)
    requires Shape(s, k, Some(e), map[], n, lock, rq, rf) && id !in rq
    requires Usable(e.image) && e.freshUntil <= s.now < e.staleUntil
    ensures Shape(Next(s, Get(id, k)), k, Some(e), map[k := n], n + 1, lock, rq, rf[n := Queued(k)])
    ensures SameClock(s, Next(s, Get(id, k)))
  {
    OneKey(k, e, s.now);
  }

  lemma LockStep(s: State, k: Key, reg: map<Key, nat>, n: nat, rq: map<nat, Request>, rf: map<nat, Refresh>, id: nat)
    requires Shape(s, k, None, reg, n, Nobody, rq, rf) && id in rq && rq[id] == AwaitingLock(k)
    ensures Shape(Next(s, GetLocked(id)), k, None, reg, n, ByRequest(id), rq[id := Capturing(k, s.now, None)], rf)
    ensures SameClock(s, Next(s, GetLocked(id)))
  {
  }

  lemma DeliverStep(s: State, k: Key, reg: map<Key, nat>, n: nat, rf: map<nat, Refresh>, id: nat, since: real, image: Image)
    requires Shape(s, k, None, reg, n, ByRequest(id), map[id := Capturing(k, since, None)], rf) && Usable(image)
    ensures var st := GetCaptured(id, Captured(image));
      && Delivers(s, st, k)
      && Shape(Next(s, st), k, Some(NewEntry(s.lim, image, s.now)), reg, n, Nobody, map[], rf)
      && SameClock(s, Next(s, st))
  {
    StoreFirstKey(s.lim, k, image, s.now);
    assert map[id := Capturing(k, since, None)] - {id} == map[];
  }

  lemma RefreshLockStep(s: State, k: Key, e: Entry, n: nat, rq: map<nat, Request>, rf: map<nat, Refresh>, t: nat)
    requires Shape(s, k, Some(e), map[k := t], n, Nobody, rq, rf) && t in rf && rf[t] == Queued(k)
    requires e.freshUntil <= s.now < e.staleUntil
    ensures Shape(Next(s, RefreshLocked(t)), k, Some(e), map[k := t], n, ByRefresh(t), rq, rf[t := Refreshing(k, s.now, e)])
    ensures SameClock(s, Next(s, RefreshLocked(t)))
  {
  }

  lemma TimeoutStep(s: State, k: Key, e: Option<Entry>, n: nat, rq: map<nat, Request>, rf: map<nat, Refresh>, t: nat)
    requires Shape(s, k, e, map[k := t], n, ByRefresh(t), rq, rf) && t in rf && rf[t].Refreshing? && rf[t].key == k
    ensures Shape(Next(s, RefreshTimeout(t)), k, e, map[k := t], n, Nobody, rq, rf[t := TimedOut(k)])
    ensures SameClock(s, Next(s, RefreshTimeout(t)))
  {
  }

  lemma RecoverStep(s: State, k: Key, e: Entry, n: nat, rq: map<nat, Request>, rf: map<nat, Refresh>, t: nat)
    requires Shape(s, k, Some(e), map[k := t], n, Nobody, rq, rf) && t in rf && rf[t] == TimedOut(k) && s.now < e.staleUntil
    ensures Shape(Next(s, RefreshRecovers(t)), k, Some(Entry(s.now + s.lim.failureTtl, e.staleUntil, e.image)),
      map[k := t], n, Nobody, rq, rf[t := Ended(k)])
    ensures SameClock(s, Next(s, RefreshRecovers(t)))
  {
    CoolOneKey(s.lim, k, e, e, s.now);
  }

  lemma CallbackStep(s: State, k: Key, e: Option<Entry>, n: nat, rq: map<nat, Request>, t: nat)
    requires Shape(s, k, e, map[k := t], n, Nobody, rq, map[t := Ended(k)])
    ensures Shape(Next(s, RefreshCallback(t)), k, e, map[], n, Nobody, rq, map[])
    ensures SameClock(s, Next(s, RefreshCallback(t)))
  {
    assert map[k := t] - {k} == map[];
    assert map[t := Ended(k)] - {t} == map[];
  }

  lemma TickStep(s: State, k: Key, e: Option<Entry>, reg: map<Key, nat>, n: nat, lock: Holder,
                 rq: map<nat, Request>, rf: map<nat, Refresh>, d: real)
    requires Shape(s, k, e, reg, n, lock, rq, rf) && d >= 0.0
    ensures var m := Next(s, Tick(d));
      Shape(m, k, e, reg, n, lock, rq, rf) && m.now == s.now + d && m.lim == s.lim
  {
  }

  lemma {:induction false} AfterConcat(s: State, a: seq<Step>, b: seq<Step>)
    ensures After(s, a + b) == After(After(s, a), b)
    decreases |a|
  {
    if a == [] {
      assert a + b == b;
    } else {
      assert (a + b)[1..] == a[1..] + b;
      AfterConcat(Next(s, a[0]), a[1..], b);
    }
  }

  lemma AfterSnoc(s: State, run: seq<Step>, st: Step)
    ensures After(s, run + [st]) == Next(After(s, run), st)
  {
    AfterConcat(s, run, [st]);
    assert After(Next(After(s, run), st), []) == Next(After(s, run), st);
  }

  lemma AfterThree(s: State, a: Step, b: Step, c: Step)
    ensures After(s, [a] + [b] + [c]) == Next(Next(Next(s, a), b), c)
  {
    AfterSnoc(s, [], a);
    AfterSnoc(s, [a], b);
    AfterSnoc(s, [a] + [b], c);
    assert [] + [a] == [a] && After(s, []) == s;
  }

  lemma AfterFive(s: State, a: Step, b: Step, c: Step, d: Step, e: Step)
    ensures After(s, [a] + [b] + [c] + [d] + [e]) == Next(Next(Next(Next(Next(s, a), b), c), d), e)
  {
    AfterThree(s, a, b, c);
    AfterSnoc(s, [a] + [b] + [c], d);
    AfterSnoc(s, [a] + [b] + [c] + [d], e);
  }

  // ---------------------------------------------------------------- the run

  function Seed(k: Key, image: Image): seq<Step> {
    [Get(0, k)] + [GetLocked(0)] + [GetCaptured(0, Captured(image))]
  }

  lemma SeedRuns(s: State, k: Key, image: Image)
    requires Init(s) && Usable(image)
    ensures var m := After(s, Seed(k, image));
      Shape(m, k, Some(NewEntry(s.lim, image, s.now)), map[], 0, Nobody, map[], map[]) && SameClock(s, m)
  {
    var a := Next(s, Get(0, k));
    var b := Next(a, GetLocked(0));
    MissStep(s, k, None, map[], 0, Nobody, map[], map[], 0);
    LockStep(a, k, map[], 0, map[0 := AwaitingLock(k)], map[], 0);
    assert map[0 := AwaitingLock(k)][0 := Capturing(k, s.now, None)] ==
      map[0 := Capturing(k, s.now, None)];
    DeliverStep(b, k, map[], 0, map[], 0, s.now, image);
    AfterThree(s, Get(0, k), GetLocked(0), GetCaptured(0, Captured(image)));
  }

  /** After `d` a request finds the image stale and a refresh starts to capture. */
  function Begin(k: Key, d: real): seq<Step> {
    [Tick(d)] + [Get(1, k)] + [RefreshLocked(0)]
  }

  /** While it captures, the image expires and is requested. */
  function Expire(k: Key, d: real): seq<Step> {
    [Tick(d)] + [Get(2, k)]
  }

  lemma RefreshBegins(s: State, k: Key, e: Entry, d: real)
    requires Shape(s, k, Some(e), map[], 0, Nobody, map[], map[]) && Usable(e.image) && d >= 0.0
    requires e.freshUntil <= s.now + d < e.staleUntil
    ensures var m := After(s, Begin(k, d));
      && m.lim == s.lim && m.now == s.now + d
      && Shape(m, k, Some(e), map[k := 0], 1, ByRefresh(0), map[], map[0 := Refreshing(k, m.now, e)])
  {
    var a := Next(s, Tick(d));
    TickStep(s, k, Some(e), map[], 0, Nobody, map[], map[], d);
    var b := Next(a, Get(1, k));
    StaleStep(a, k, e, 0, Nobody, map[], map[], 1);
    RefreshLockStep(b, k, e, 1, map[], map[0 := Queued(k)], 0);
    assert map[0 := Queued(k)][0 := Refreshing(k, b.now, e)] == map[0 := Refreshing(k, b.now, e)];
    AfterThree(s, Tick(d), Get(1, k), RefreshLocked(0));
  }

  lemma ExpiresInFlight(s: State, k: Key, e: Entry, r: Refresh, d: real)
    requires Shape(s, k, Some(e), map[k := 0], 1, ByRefresh(0), map[], map[0 := r])
    requires d >= 0.0 && e.staleUntil <= s.now + d
    ensures var m := After(s, Expire(k, d));
      && m.lim == s.lim && m.now == s.now + d
      && Shape(m, k, None, map[k := 0], 1, ByRefresh(0), map[2 := AwaitingLock(k)], map[0 := r])
  {
    TickStep(s, k, Some(e), map[k := 0], 1, ByRefresh(0), map[], map[0 := r], d);
    MissStep(Next(s, Tick(d)), k, Some(e), map[k := 0], 1, ByRefresh(0), map[], map[0 := r], 2);
    AfterSnoc(s, [], Tick(d));
    AfterSnoc(s, [Tick(d)], Get(2, k));
    assert [] + [Tick(d)] == [Tick(d)] && After(s, []) == s;
  }

  /** The refresh meets its deadline and the waiting request gets the lock first. */
  function Overtake(lim: Limits, eps: real): seq<Step> {
    [Tick(lim.timeout - eps)] + [RefreshTimeout(0)] + [GetLocked(2)]
  }

  lemma OvertakeRuns(s: State, k: Key, r: Refresh, eps: real)
    requires r.Refreshing? && r.key == k && eps <= s.lim.timeout
    requires Shape(s, k, None, map[k := 0], 1, ByRefresh(0), map[2 := AwaitingLock(k)], map[0 := r])
    ensures var m := After(s, Overtake(s.lim, eps));
      && m.lim == s.lim
      && Shape(m, k, None, map[k := 0], 1, ByRequest(2), map[2 := Capturing(k, m.now, None)], map[0 := TimedOut(k)])
  {
    var d := s.lim.timeout - eps;
    var a := Next(s, Tick(d));
    TickStep(s, k, None, map[k := 0], 1, ByRefresh(0), map[2 := AwaitingLock(k)], map[0 := r], d);
    TimeoutAndLock(a, k, r);
    AfterThree(s, Tick(d), RefreshTimeout(0), GetLocked(2));
  }

  lemma TimeoutAndLock(a: State, k: Key, r: Refresh)
    requires r.Refreshing? && r.key == k
    requires Shape(a, k, None, map[k := 0], 1, ByRefresh(0), map[2 := AwaitingLock(k)], map[0 := r])
    ensures var m := Next(Next(a, RefreshTimeout(0)), GetLocked(2));
      && SameClock(a, m)
      && Shape(m, k, None, map[k := 0], 1, ByRequest(2), map[2 := Capturing(k, m.now, None)], map[0 := TimedOut(k)])
  {
    var b := Next(a, RefreshTimeout(0));
    TimeoutStep(a, k, None, 1, map[2 := AwaitingLock(k)], map[0 := r], 0);
    assert map[0 := r][0 := TimedOut(k)] == map[0 := TimedOut(k)];
    LockStep(b, k, map[k := 0], 1, map[2 := AwaitingLock(k)], map[0 := TimedOut(k)], 2);
    assert map[2 := AwaitingLock(k)][2 := Capturing(k, b.now, None)] == map[2 := Capturing(k, b.now, None)];
  }

  /** The handler writes its cooldown over the new image, and the next request refreshes again. */
  function Cut(lim: Limits, k: Key): seq<Step> {
    [RefreshRecovers(0)] + [RefreshCallback(0)] + [Tick(lim.failureTtl)] + [Get(3, k)] + [RefreshLocked(1)]
  }

  lemma CutRuns(s: State, k: Key, image: Image)
    requires Usable(image) && 0.0 <= s.lim.failureTtl < s.lim.ttl <= s.lim.staleTtl
    requires Shape(s, k, Some(NewEntry(s.lim, image, s.now)), map[k := 0], 1, Nobody, map[], map[0 := TimedOut(k)])
    ensures var m := After(s, Cut(s.lim, k)); InCapture(m, k) && m.now == s.now + s.lim.failureTtl
  {
    var e := NewEntry(s.lim, image, s.now);
    var a := Next(s, RefreshRecovers(0));
    RecoverStep(s, k, e, 1, map[], map[0 := TimedOut(k)], 0);
    assert map[0 := TimedOut(k)][0 := Ended(k)] == map[0 := Ended(k)];
    var e' := Entry(s.now + s.lim.failureTtl, e.staleUntil, e.image);
    var b := Next(a, RefreshCallback(0));
    CallbackStep(a, k, Some(e'), 1, map[], 0);
    var c := Next(b, Tick(s.lim.failureTtl));
    TickStep(b, k, Some(e'), map[], 1, Nobody, map[], map[], s.lim.failureTtl);
    var d := Next(c, Get(3, k));
    StaleStep(c, k, e', 1, Nobody, map[], map[], 3);
    RefreshLockStep(d, k, e', 2, map[], map[1 := Queued(k)], 1);
    var m := Next(d, RefreshLocked(1));
    assert 1 in m.refreshes && m.refreshes[1].Refreshing? && m.refreshes[1].key == k;
    AfterFive(s, RefreshRecovers(0), RefreshCallback(0), Tick(s.lim.failureTtl), Get(3, k), RefreshLocked(1));
  }

  function Prelude(lim: Limits, k: Key, first: Image, eps: real): seq<Step> {
    Seed(k, first) + (Begin(k, lim.staleTtl - eps) + (Expire(k, eps) + Overtake(lim, eps)))
  }

  lemma PreludeRuns(s: State, k: Key, first: Image, eps: real)
    requires Init(s) && Usable(first) && 0.0 < eps <= s.lim.staleTtl - s.lim.ttl && eps <= s.lim.timeout
    ensures var e := After(s, Prelude(s.lim, k, first, eps));
      && e.lim == s.lim
      && Shape(e, k, None, map[k := 0], 1, ByRequest(2), map[2 := Capturing(k, e.now, None)], map[0 := TimedOut(k)])
  {
    var entry := NewEntry(s.lim, first, s.now);
    SeedRuns(s, k, first);
    var a := After(s, Seed(k, first));
    RefreshBegins(a, k, entry, s.lim.staleTtl - eps);
    var b := After(a, Begin(k, s.lim.staleTtl - eps));
    var r := Refreshing(k, b.now, entry);
    ExpiresInFlight(b, k, entry, r, eps);
    var c := After(b, Expire(k, eps));
    OvertakeRuns(c, k, r, eps);
    AfterFour(s, Seed(k, first), Begin(k, s.lim.staleTtl - eps), Expire(k, eps), Overtake(s.lim, eps));
  }

  lemma AfterFour(s: State, a: seq<Step>, b: seq<Step>, c: seq<Step>, d: seq<Step>)
    ensures After(s, a + (b + (c + d))) == After(After(After(After(s, a), b), c), d)
  {
    AfterConcat(s, a, b + (c + d));
    AfterConcat(After(s, a), b, c + d);
    AfterConcat(After(After(s, a), b), c, d);
  }

  /**
   * The exclusion in the rate limit is needed. From the empty cache, with nothing discarded,
   * cleared or evicted, a capture delivers at time t and the next one for the same key starts
   * at t + failure_ttl, because a refresh that timed out in between writes its cooldown late.
   */
  lemma TimedOutRefreshCutsFreshness(s: State, k: Key, first: Image, second: Image, eps: real)
    requires Init(s) && Usable(first) && Usable(second)
    requires s.lim.failureTtl < s.lim.ttl && 0.0 < eps <= s.lim.staleTtl - s.lim.ttl && eps <= s.lim.timeout
    ensures var e := After(s, Prelude(s.lim, k, first, eps));
      var st := GetCaptured(2, Captured(second));
      var f := After(Next(e, st), Cut(s.lim, k));
      Delivers(e, st, k) && InCapture(f, k) && f.now < e.now + e.lim.ttl
  {
    PreludeRuns(s, k, first, eps);
    var e := After(s, Prelude(s.lim, k, first, eps));
    DeliverStep(e, k, map[k := 0], 1, map[0 := TimedOut(k)], 2, e.now, second);
    CutRuns(Next(e, GetCaptured(2, Captured(second))), k, second);
  }
}
