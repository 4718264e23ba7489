/** What the snapshot cache guarantees over every interleaving of its tasks. */
module SnapshotTheorems {
  import opened Wrappers
  import opened SnapshotStore
  import opened SnapshotCache
  import opened SnapshotProtocol
  import opened SnapshotInvariant

  // ---------------------------------------------------------------- bound, single flight

  /** At every yield point the cache holds at most `max_entries` images. */
  lemma SizeBound(s: State, run: seq<Step>)
    requires Init(s)
    ensures |After(s, run).store.cache.vals| <= After(s, run).lim.maxEntries
  {
    InitInv(s);
    RunInv(s, run);
    KeysAreOrdered(After(s, run).store.cache);
  }

  lemma {:induction false} MembersBound(keys: seq<Key>)
    ensures |Members(keys)| <= |keys|
  {
    if keys != [] {
      MembersBound(keys[1..]);
      assert keys == [keys[0]] + keys[1..];
      assert Members(keys) == {keys[0]} + Members(keys[1..]);
    }
  }

  lemma KeysAreOrdered(c: Cache)
    requires Wf(c)
    ensures |c.vals| <= |c.order|
  {
    MembersBound(c.order);
    assert c.vals.Keys == Members(c.order);
  }

  /** The tasks suspended inside some `capture()`, over all keys. */
  ghost function Captures(s: State): set<Holder> {
    (set i | i in s.requests && s.requests[i].Capturing? :: ByRequest(i)) +
    (set t | t in s.refreshes && s.refreshes[t].Refreshing? :: ByRefresh(t))
  }

  /** At most one capture runs at a time, and it is the lock holder's. */
  lemma SingleFlight(s: State, run: seq<Step>)
    requires Init(s)
    ensures var e := After(s, run); Captures(e) == if e.lock.Nobody? then {} else {e.lock}
  {
    InitInv(s);
    RunInv(s, run);
  }

  /** A foreground capture starts only when the cache has nothing presentable for the key. */
  lemma ForegroundOnlyOnMiss(s: State, id: nat)
    requires Inv(s) && Enabled(s, GetLocked(id))
    requires Next(s, GetLocked(id)).lock == ByRequest(id)
    ensures var k := s.requests[id].key;
      && (k in s.store.cache.vals ==> s.store.cache.vals[k].staleUntil <= s.now)
      && k !in Next(s, GetLocked(id)).store.cache.vals
      && ReplyTo(s, GetLocked(id)) == NoReply
  {
    MissMeansAbsent(s, s.requests[id].key);
  }

  // ---------------------------------------------------------------- staleness

  /** Every image served from the cache was captured for that key, less than `stale_ttl` ago. */
  lemma BoundedStaleness(s: State, run: seq<Step>, st: Step)
    requires Init(s)
    requires var r := ReplyTo(After(s, run), st); r.FromCache? && Usable(r.image)
    ensures var e := After(s, run);
      var r := ReplyTo(e, st);
      exists x | x in e.stored ::
        x.key == r.key && x.image == r.image && x.at <= e.now && e.now - x.at < e.lim.staleTtl
  {
    InitInv(s);
    RunInv(s, run);
    HitIsRecent(After(s, run), st);
  }

  lemma HitIsRecent(e: State, st: Step)
    requires Inv(e)
    requires var r := ReplyTo(e, st); r.FromCache? && Usable(r.image)
    ensures var r := ReplyTo(e, st);
      exists x | x in e.stored ::
        x.key == r.key && x.image == r.image && x.at <= e.now && e.now - x.at < e.lim.staleTtl
  {
    var r := ReplyTo(e, st);
    HitIsPresentable(e, st);
    var entry := e.store.cache.vals[r.key];
    assert EntryOk(e.lim, e.stored, e.now, r.key, entry);
    assert Stored(r.key, r.image, entry.staleUntil - e.lim.staleTtl) in e.stored;
  }

  lemma HitIsPresentable(e: State, st: Step)
    requires FlightInv(e)
    requires var r := ReplyTo(e, st); r.FromCache? && Usable(r.image)
    ensures var r := ReplyTo(e, st);
      && r.key in e.store.cache.vals
      && e.store.cache.vals[r.key].image == r.image
      && e.store.cache.vals[r.key].staleUntil > e.now
  {
  }

  /** The history is honest: only a capture for that key that just delivered the image enters it. */
  lemma HistoryIsCaptures(s: State, st: Step, x: Stored)
    requires Inv(s) && x in Next(s, st).stored && x !in s.stored
    ensures x.at == s.now && Enabled(s, st)
    ensures (st.GetCaptured? && s.requests[st.id].key == x.key && st.out == Captured(x.image)) ||
            (st.RefreshCaptured? && s.refreshes[st.task].key == x.key && st.out == Captured(x.image))
  {
  }

  /**
   * A background refresh that gets the lock goes on to capture exactly when a lookup of its key
   * would still be answered with a stale image, and it starts from that image.
   */
  lemma RefreshGoesOnIffStale(s: State, t: nat)
    requires Inv(s) && Enabled(s, RefreshLocked(t))
    ensures var k, m := s.refreshes[t].key, Next(s, RefreshLocked(t));
      && (m.lock == ByRefresh(t) <==> ServesStale(s.store, k, s.now))
      && (m.lock == ByRefresh(t) ==>
            m.refreshes[t] == Refreshing(k, s.now, s.store.cache.vals[k]) &&
            m.refreshes[t].prior.image == Cached(s.store, k, s.now).image)
  {
    assert EmptyStaysFresh(s.store.cache) by {
      forall k | k in s.store.cache.vals && !Usable(s.store.cache.vals[k].image)
        ensures s.store.cache.vals[k].freshUntil >= s.store.cache.vals[k].staleUntil
      {
        assert EntryOk(s.lim, s.stored, s.now, k, s.store.cache.vals[k]);
      }
    }
    NeededServesStale(s.store, s.refreshes[t].key, s.now);
  }

  /** A request that captures gets exactly its own capture's image or error. */
  lemma CaptureIsAnswered(s: State, id: nat, out: Outcome)
    requires Inv(s) && Enabled(s, GetCaptured(id, out))
    ensures ReplyTo(s, GetCaptured(id, out)) ==
      if out.Raised? then Error(s.requests[id].key) else FromCapture(s.requests[id].key, out.image)
  {
  }

  // ---------------------------------------------------------------- refresh bookkeeping

  /** Over all runs a key has at most one live uncancelled refresh, the registered one. */
  lemma OneRefreshPerKey(s: State, run: seq<Step>, t: nat, u: nat)
    requires Init(s)
    requires var e := After(s, run);
      && t in e.refreshes && Live(e.refreshes[t]) && t !in e.store.cancelled
      && u in e.refreshes && Live(e.refreshes[u]) && u !in e.store.cancelled
      && e.refreshes[t].key == e.refreshes[u].key
    ensures var e := After(s, run);
      var k := e.refreshes[t].key;
      t == u && k in e.store.registered && e.store.registered[k] == t
  {
    InitInv(s);
    RunInv(s, run);
  }

  /** A done callback unregisters its own task and no other. */
  lemma CallbackKeepsNewer(s: State, t: nat, k: Key)
    requires Inv(s) && k in s.store.registered
    ensures var r := Next(s, RefreshCallback(t)).store.registered;
      (k in r <==> !(Enabled(s, RefreshCallback(t)) && s.store.registered[k] == t)) &&
      (k in r ==> r[k] == s.store.registered[k])
  {
  }

  /** The key is out, and no background task can bring it back. */
  ghost predicate Gone(s: State, k: Key) {
    && k !in s.store.cache.vals && k !in s.store.registered
    && forall t | t in s.refreshes && Live(s.refreshes[t]) && s.refreshes[t].key == k :: t in s.store.cancelled
  }

  lemma DiscardedIsGone(s: State, k: Key)
    requires Inv(s)
    ensures Gone(Next(s, Discard(k)), k)
  {
  }

  lemma ClearedIsGone(s: State, k: Key)
    requires Inv(s)
    ensures Gone(Next(s, Clear), k)
  {
    var m := Next(s, Clear);
    forall t | t in m.refreshes && Live(m.refreshes[t]) && m.refreshes[t].key == k ensures t in m.store.cancelled {
      if t !in s.store.cancelled {
        assert s.store.registered[k] == t;
      }
    }
  }

  /** The step ends a foreground capture of the key. */
  predicate StoresForeground(s: State, st: Step, k: Key) {
    st.GetCaptured? && Enabled(s, st) && s.requests[st.id].key == k
  }

  lemma OnlyPresentKeysStart(st: Store, j: Key, now: real)
    ensures var r := Cached(st, j, now);
      && r.after.cancelled == st.cancelled
      && (r.started.Some? ==> j in st.cache.vals)
      && r.after.registered == (if r.started.Some? then st.registered[j := r.started.value] else st.registered)
  {
  }

  lemma LookKeepsGone(s: State, k: Key, j: Key)
    requires CacheInv(s) && Gone(s, k)
    ensures Gone(Look(s, j), k)
  {
    CachedShrinks(s.store, j, s.now);
    OnlyPresentKeysStart(s.store, j, s.now);
  }

  /** What the step did to the cache cannot bring `k` back, and no refresh of `k` came up. */
  lemma GoneKept(s: State, m: State, k: Key)
    requires Gone(s, k) && k !in m.store.cache.vals && k !in m.store.registered
    requires s.store.cancelled <= m.store.cancelled
    requires forall t | t in m.refreshes && Live(m.refreshes[t]) ::
      t in s.refreshes && Live(s.refreshes[t]) && m.refreshes[t].key == s.refreshes[t].key
    ensures Gone(m, k)
  {
  }

  lemma RememberOther(c: Cache, lim: Limits, k: Key, j: Key, image: Image, now: real)
    requires Wf(c) && lim.maxEntries >= 1 && k !in c.vals && k != j
    ensures k !in Remember(c, lim, j, image, now).vals
  {
    RememberBounded(c, lim, j, image, now);
  }

  lemma GoneAfterCapture(s: State, st: Step, k: Key)
    requires Inv(s) && Gone(s, k) && !StoresForeground(s, st, k) && Enabled(s, st)
    requires st.GetCaptured? || st.RefreshCaptured?
    ensures Gone(Next(s, st), k)
  {
    var j := if st.GetCaptured? then s.requests[st.id].key else s.refreshes[st.task].key;
    assert j != k;
    RememberOther(s.store.cache, s.lim, k, j, if st.out.Captured? then st.out.image else None, s.now);
    GoneKept(s, Next(s, st), k);
  }

  lemma GoneOther(s: State, st: Step, k: Key)
    requires Gone(s, k) && !st.Get? && !st.GetLocked? && !st.GetCaptured? && !st.RefreshCaptured?
    ensures Gone(Next(s, st), k)
  {
    GoneKept(s, Next(s, st), k);
  }

  lemma GoneStep(s: State, st: Step, k: Key)
    requires Inv(s) && Gone(s, k) && !StoresForeground(s, st, k)
    ensures Gone(Next(s, st), k)
  {
    if Enabled(s, st) {
      match st
      case Get(_, j) => LookKeepsGone(s, k, j);
      case GetLocked(id) => LookKeepsGone(s, k, s.requests[id].key);
      case GetCaptured(_, _) => GoneAfterCapture(s, st, k);
      case RefreshCaptured(_, _) => GoneAfterCapture(s, st, k);
      case _ => GoneOther(s, st, k);
    }
  }

  ghost predicate NoForegroundStore(s: State, run: seq<Step>, k: Key)
    decreases |run|
  {
    run == [] || (!StoresForeground(s, run[0], k) && NoForegroundStore(Next(s, run[0]), run[1..], k))
  }

  /** After a discard or clear, the key stays out until a foreground capture of it ends. */
  lemma {:induction false} StaysGone(s: State, run: seq<Step>, k: Key)
    requires Inv(s) && Gone(s, k) && NoForegroundStore(s, run, k)
    ensures Gone(After(s, run), k)
    decreases |run|
  {
    if run != [] {
      GoneStep(s, run[0], k);
      StepInv(s, run[0]);
      StaysGone(Next(s, run[0]), run[1..], k);
    }
  }
}
