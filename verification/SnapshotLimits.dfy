/** Capture rate and eviction order of the snapshot cache, and the one gap in its rate limit. */
module SnapshotLimits {
  import opened Wrappers
  import opened SnapshotStore
  import opened SnapshotCache
  import opened SnapshotProtocol
  import opened SnapshotInvariant

  // ---------------------------------------------------------------- rate limit

  ghost predicate InCapture(s: State, k: Key) {
    (exists i :: i in s.requests && s.requests[i].Capturing? && s.requests[i].key == k) ||
    (exists t :: t in s.refreshes && s.refreshes[t].Refreshing? && s.refreshes[t].key == k)
  }

  /** Until `due` the image stays and nothing captures the key. */
  ghost predicate Held(s: State, k: Key, due: real) {
    s.now < due ==>
      && k in s.store.cache.vals
      && s.store.cache.vals[k].freshUntil >= due && s.store.cache.vals[k].staleUntil >= due
      && !InCapture(s, k)
  }

  /** A capture of `k` delivers a usable image and stores it. */
  predicate Delivers(s: State, st: Step, k: Key) {
    Enabled(s, st) &&
    ((st.GetCaptured? && s.requests[st.id].key == k && st.out.Captured? && Usable(st.out.image)) ||
     (st.RefreshCaptured? && s.refreshes[st.task].key == k && st.out.Captured? && Usable(st.out.image)))
  }

  /**
   * The image is discarded, cleared or evicted, or a refresh that had timed out gets the lock
   * and writes a cooldown that ends before `due`.
   */
  predicate Cuts(s: State, st: Step, k: Key, due: real) {
    st == Discard(k) || st.Clear? ||
    (Recovers(s, st, k) && s.now + s.lim.failureTtl < due) ||
    Evicts(s, st, k)
  }

  /** The capture that ends goes through `_remember`: any foreground one, and one that refreshed the image. */
  predicate Stores(s: State, st: Step) {
    Enabled(s, st) && (st.GetCaptured? || (st.RefreshCaptured? && st.out.Captured? && st.out.image.Some?))
  }

  /** ... for a key that is not there, into a full cache whose oldest key is `k`. */
  predicate Evicts(s: State, st: Step, k: Key) {
    && Stores(s, st)
    && (if st.GetCaptured? then s.requests[st.id].key else s.refreshes[st.task].key) !in s.store.cache.vals
    && |s.store.cache.order| >= s.lim.maxEntries && s.store.cache.order != [] && s.store.cache.order[0] == k
  }

  predicate Recovers(s: State, st: Step, k: Key) {
    st.RefreshRecovers? && Enabled(s, st) && s.refreshes[st.task].key == k
  }

  ghost predicate Uncut(s: State, run: seq<Step>, k: Key, due: real)
    decreases |run|
  {
    run == [] || ((s.now < due ==> !Cuts(s, run[0], k, due)) && Uncut(Next(s, run[0]), run[1..], k, due))
  }

  lemma DeliveredStore(s: State, st: Step, k: Key)
    requires Delivers(s, st, k)
    ensures var m := Next(s, st);
      && m.store.cache == Remember(s.store.cache, s.lim, k, st.out.image, s.now)
      && m.lock == Nobody && m.now == s.now
      && m.touched == s.touched[k := s.moves] && m.moves == s.moves + 1
  {
  }

  lemma NobodyCaptures(s: State, k: Key)
    requires LockInv(s) && s.lock == Nobody
    ensures !InCapture(s, k)
  {
  }

  lemma DeliveredIsHeld(s: State, st: Step, k: Key)
    requires Inv(s) && Delivers(s, st, k)
    ensures Held(Next(s, st), k, s.now + s.lim.ttl) && Inv(Next(s, st))
  {
    StepInv(s, st);
    NobodyCaptures(Next(s, st), k);
    DeliveredStore(s, st, k);
    RememberBounded(s.store.cache, s.lim, k, st.out.image, s.now);
  }

  /** `_cached` only purges; it answers from an entry that is there. */
  lemma CachedVals(st: Store, k: Key, now: real)
    ensures var r := Cached(st, k, now);
      var p := Purge(st.cache, now);
      && r.after.cache.vals == p.vals
      && r.after.cache.order == (if r.hit then Without(p.order, {k}) + [k] else p.order)
      && (k in p.vals && p.vals[k].freshUntil > now ==> r.hit && r.started == None)
  {
  }

  lemma LookKeepsEntry(s: State, j: Key, k: Key)
    requires k in s.store.cache.vals && s.store.cache.vals[k].staleUntil > s.now
    ensures var c := Look(s, j).store.cache; k in c.vals && c.vals[k] == s.store.cache.vals[k]
    ensures s.store.cache.vals[k].freshUntil > s.now ==> Hit(s, k)
  {
    CachedVals(s.store, j, s.now);
    CachedVals(s.store, k, s.now);
    assert k in Purge(s.store.cache, s.now).vals;
  }

  /** The only capture these steps can start is the request's own, after a miss. */
  lemma GetStarts(s: State, st: Step, k: Key)
    requires Enabled(s, st) && (st.Get? || st.GetLocked?)
    requires !InCapture(s, k) && Hit(s, k)
    ensures !InCapture(Next(s, st), k)
  {
    var j := if st.Get? then st.key else s.requests[st.id].key;
    var m := Next(s, st);
    assert forall t | t in Look(s, j).refreshes && Look(s, j).refreshes[t].Refreshing? ::
      t in s.refreshes && Look(s, j).refreshes[t] == s.refreshes[t];
    assert m.refreshes == Look(s, j).refreshes;
    assert forall i | i in m.requests && m.requests[i].Capturing? ::
      (i in s.requests && m.requests[i] == s.requests[i]) || (m.requests[i].key == j && !Hit(s, j));
  }

  lemma GetKeepsEntry(s: State, st: Step, k: Key)
    requires Enabled(s, st) && (st.Get? || st.GetLocked?)
    ensures Next(s, st).store == Look(s, if st.Get? then st.key else s.requests[st.id].key).store
    ensures Next(s, st).now == s.now
  {
  }

  lemma HeldAfterGet(s: State, st: Step, k: Key, due: real)
    requires Held(s, k, due) && s.now < due && Enabled(s, st) && (st.Get? || st.GetLocked?)
    ensures Held(Next(s, st), k, due)
  {
    LookKeepsEntry(s, if st.Get? then st.key else s.requests[st.id].key, k);
    GetKeepsEntry(s, st, k);
    GetStarts(s, st, k);
  }

  /** Storing drops exactly the oldest key, and only for a new key in a full cache. */
  lemma RememberDrops(c: Cache, lim: Limits, j: Key, k: Key, image: Image, now: real)
    requires Wf(c) && |c.order| <= lim.maxEntries && lim.maxEntries >= 1 && k in c.vals
    ensures k !in Remember(c, lim, j, image, now).vals <==>
      j !in c.vals && |c.order| >= lim.maxEntries && c.order != [] && c.order[0] == k
  {
    var e := NewEntry(lim, image, now);
    PutAtEnd(c, j, e);
    var m := SetLast(c, j, e);
    if j in c.vals || |c.order| < lim.maxEntries {
      PopNothing(m);
    } else {
      FullDrops(c, lim.maxEntries, j, e);
    }
  }

  lemma FullDrops(c: Cache, max: nat, j: Key, e: Entry)
    requires Wf(c) && |c.order| == max >= 1 && j !in c.vals
    ensures Evict(SetLast(c, j, e), max).vals == c.vals[j := e] - {c.order[0]}
  {
    WithoutNothing(c.order, {j});
    PutAtEnd(c, j, e);
    var m := SetLast(c, j, e);
    assert m.order == c.order + [j];
    assert m.order[..1] == [c.order[0]] && Members([c.order[0]]) == {c.order[0]};
  }

  /** The end of a capture pushes a key out exactly under the guard of eviction. */
  lemma EvictsIff(s: State, st: Step, k: Key)
    requires Inv(s) && Enabled(s, st) && (st.GetCaptured? || st.RefreshCaptured?) && k in s.store.cache.vals
    ensures k !in Next(s, st).store.cache.vals <==> Evicts(s, st, k)
  {
    if Stores(s, st) {
      var j := if st.GetCaptured? then s.requests[st.id].key else s.refreshes[st.task].key;
      var image := if st.out.Captured? then st.out.image else None;
      StoresRemembers(s, st, j, image);
      RememberDrops(s.store.cache, s.lim, j, k, image, s.now);
    }
  }

  lemma StoresRemembers(s: State, st: Step, j: Key, image: Image)
    requires FlightInv(s) && Stores(s, st)
    requires j == if st.GetCaptured? then s.requests[st.id].key else s.refreshes[st.task].key
    requires image == if st.out.Captured? then st.out.image else None
    ensures Next(s, st).store.cache == Remember(s.store.cache, s.lim, j, image, s.now)
  {
  }

  /** A capture that ends writes one key and leaves the others, except by eviction. */
  lemma CaptureWrites(s: State, st: Step, j: Key, k: Key)
    requires Inv(s) && Enabled(s, st) && (st.GetCaptured? || st.RefreshCaptured?)
    requires j == if st.GetCaptured? then s.requests[st.id].key else s.refreshes[st.task].key
    requires k != j && k in s.store.cache.vals && k in Next(s, st).store.cache.vals
    ensures Next(s, st).store.cache.vals[k] == s.store.cache.vals[k]
  {
    var image := if st.out.Captured? then st.out.image else None;
    WritesLeaveOthers(s.store.cache, s.lim, j, k, image, s.now);
  }

  /** Neither way of writing a key changes another one that is still there. */
  lemma WritesLeaveOthers(c: Cache, lim: Limits, j: Key, k: Key, image: Image, now: real)
    requires Wf(c) && lim.maxEntries >= 1 && k != j && k in c.vals
    ensures var r := Remember(c, lim, j, image, now); k in r.vals ==> r.vals[k] == c.vals[k]
    ensures forall prior, since :: CoolDown(c, lim, j, prior, since).vals[k] == c.vals[k]
  {
    RememberBounded(c, lim, j, image, now);
  }

  lemma HeldAfterCapture(s: State, st: Step, k: Key, due: real)
    requires Inv(s) && Held(s, k, due) && s.now < due && !Cuts(s, st, k, due) && Enabled(s, st)
    requires st.GetCaptured? || st.RefreshCaptured?
    ensures Held(Next(s, st), k, due)
  {
    var j := if st.GetCaptured? then s.requests[st.id].key else s.refreshes[st.task].key;
    assert j != k;
    EvictsIff(s, st, k);
    CaptureWrites(s, st, j, k);
    StepInv(s, st);
    assert Next(s, st).lock == Nobody && Next(s, st).now == s.now;
    NobodyCaptures(Next(s, st), k);
  }

  lemma HeldOther(s: State, st: Step, k: Key, due: real)
    requires Held(s, k, due) && s.now < due && !Cuts(s, st, k, due) && !Recovers(s, st, k)
    requires !st.Get? && !st.GetLocked? && !st.GetCaptured? && !st.RefreshCaptured?
    ensures Held(Next(s, st), k, due)
  {
  }

  /** The handler keeps the image and its expiry; only its cooldown decides about freshness. */
  lemma HeldAfterRecovery(s: State, st: Step, k: Key, due: real)
    requires Held(s, k, due) && s.now < due && Recovers(s, st, k)
    ensures Held(Next(s, st), k, due) <==> s.now + s.lim.failureTtl >= due
  {
  }

  /** Exactly the cutting steps end the hold early. */
  lemma HeldStep(s: State, st: Step, k: Key, due: real)
    requires Inv(s) && Held(s, k, due) && s.now < due
    ensures Next(s, st).now < due ==> (Held(Next(s, st), k, due) <==> !Cuts(s, st, k, due))
    ensures Next(s, st).now >= due ==> Held(Next(s, st), k, due)
  {
    if Recovers(s, st, k) {
      HeldAfterRecovery(s, st, k, due);
    } else if Evicts(s, st, k) {
      EvictsIff(s, st, k);
    } else if Enabled(s, st) && !Cuts(s, st, k, due) {
      if st.Get? || st.GetLocked? {
        HeldAfterGet(s, st, k, due);
      } else if st.GetCaptured? || st.RefreshCaptured? {
        HeldAfterCapture(s, st, k, due);
      } else {
        HeldOther(s, st, k, due);
      }
    }
  }

  lemma TimeAdvances(s: State, st: Step)
    ensures Next(s, st).now >= s.now
  {
  }

  lemma {:induction false} HeldRun(s: State, run: seq<Step>, k: Key, due: real)
    requires Inv(s) && Held(s, k, due) && Uncut(s, run, k, due)
    ensures Held(After(s, run), k, due) && Inv(After(s, run))
    decreases |run|
  {
    if run != [] {
      if s.now < due { HeldStep(s, run[0], k, due); }
      TimeAdvances(s, run[0]);
      StepInv(s, run[0]);
      HeldRun(Next(s, run[0]), run[1..], k, due);
    }
  }

  lemma NoCaptureWhileHeld(s: State, run: seq<Step>, k: Key, due: real)
    requires Inv(s) && Held(s, k, due) && Uncut(s, run, k, due)
    ensures InCapture(After(s, run), k) ==> After(s, run).now >= due
  {
    HeldRun(s, run, k, due);
  }

  /**
   * Rate limit: after a capture delivered at time t, none is in progress for that key before
   * t + ttl, unless some step cuts the image's freshness: discarding, clearing or evicting it,
   * or the late handler of a timed-out refresh.
   */
  lemma RateLimit(s: State, st: Step, m: State, run: seq<Step>, k: Key, due: real)
    requires Inv(s) && Delivers(s, st, k) && m == Next(s, st) && due == s.now + s.lim.ttl
    requires Uncut(m, run, k, due)
    ensures InCapture(After(m, run), k) ==> After(m, run).now >= due
  {
    DeliveredIsHeld(s, st, k);
    NoCaptureWhileHeld(m, run, k, due);
  }

  // ---------------------------------------------------------------- least recently touched

  /** The order lists keys by when they were last moved, oldest first. */
  ghost predicate ByTouch(order: seq<Key>, touched: map<Key, nat>, moves: nat) {
    && (forall i | 0 <= i < |order| :: order[i] in touched && touched[order[i]] < moves)
    && (forall i, j | 0 <= i < j < |order| :: touched[order[i]] < touched[order[j]])
  }

  ghost predicate LruInv(s: State) {
    ByTouch(s.store.cache.order, s.touched, s.moves)
  }

  lemma {:induction false} WithoutByTouch(order: seq<Key>, gone: set<Key>, touched: map<Key, nat>, moves: nat)
    requires ByTouch(order, touched, moves)
    ensures ByTouch(Without(order, gone), touched, moves)
  {
    if order != [] {
      WithoutByTouch(order[1..], gone, touched, moves);
      var rest := Without(order[1..], gone);
      assert order[0] !in gone ==> Without(order, gone) == [order[0]] + rest;
      forall j | 0 <= j < |rest| ensures touched[order[0]] < touched[rest[j]] {
        assert rest[j] in order[1..];
      }
    }
  }

  /** Moving a key to the end and stamping it keeps the listing in touch order. */
  lemma MovedByTouch(order: seq<Key>, k: Key, touched: map<Key, nat>, moves: nat)
    requires ByTouch(order, touched, moves)
    ensures ByTouch(Without(order, {k}) + [k], touched[k := moves], moves + 1)
  {
    WithoutByTouch(order, {k}, touched, moves);
    var rest := Without(order, {k});
    forall i | 0 <= i < |rest| ensures rest[i] != k {
      assert rest[i] in rest;
    }
  }

  lemma SuffixByTouch(order: seq<Key>, n: nat, touched: map<Key, nat>, moves: nat)
    requires ByTouch(order, touched, moves) && n <= |order|
    ensures ByTouch(order[n..], touched, moves)
  {
  }

  lemma LookLru(s: State, k: Key)
    requires LruInv(s)
    ensures LruInv(Look(s, k))
  {
    CachedVals(s.store, k, s.now);
    var c := Purge(s.store.cache, s.now);
    WithoutByTouch(s.store.cache.order, Expired(s.store.cache, s.now), s.touched, s.moves);
    MovedByTouch(c.order, k, s.touched, s.moves);
  }

  lemma WriteLru(c: Cache, k: Key, e: Entry, max: nat, touched: map<Key, nat>, moves: nat)
    requires Wf(c) && ByTouch(c.order, touched, moves)
    ensures var m := SetLast(c, k, e);
      && ByTouch(m.order, touched[k := moves], moves + 1)
      && ByTouch(Evict(m, max).order, touched[k := moves], moves + 1)
  {
    PutAtEnd(c, k, e);
    MovedByTouch(c.order, k, touched, moves);
    var m := SetLast(c, k, e);
    SuffixByTouch(m.order, Surplus(m, max), touched[k := moves], moves + 1);
  }

  lemma CaptureLru(s: State, st: Step)
    requires CacheInv(s) && LruInv(s) && Enabled(s, st) && (st.GetCaptured? || st.RefreshCaptured?)
    ensures LruInv(Next(s, st))
  {
    var j := if st.GetCaptured? then s.requests[st.id].key else s.refreshes[st.task].key;
    var e := CaptureOrder(s, st, j);
    WriteLru(s.store.cache, j, e, s.lim.maxEntries, s.touched, s.moves);
  }

  /** Either a cooldown entry or a new one goes to the end; only the latter evicts. */
  lemma CaptureOrder(s: State, st: Step, j: Key) returns (e: Entry)
    requires Enabled(s, st) && (st.GetCaptured? || st.RefreshCaptured?)
    requires j == if st.GetCaptured? then s.requests[st.id].key else s.refreshes[st.task].key
    ensures var m := Next(s, st);
      && m.touched == s.touched[j := s.moves] && m.moves == s.moves + 1
      && (m.store.cache == SetLast(s.store.cache, j, e) ||
          m.store.cache == Evict(SetLast(s.store.cache, j, e), s.lim.maxEntries))
  {
    e := NewEntry(s.lim, if st.out.Captured? then st.out.image else None, s.now);
    if st.GetCaptured? {
      var r := s.requests[st.id];
      if (st.out.Raised? || st.out.image.None?) && r.prior.Some? && Usable(r.prior.value.image) {
        e := Entry(r.since + s.lim.failureTtl, r.prior.value.staleUntil, r.prior.value.image);
      }
    } else {
      var r := s.refreshes[st.task];
      if st.out.Raised? || st.out.image.None? {
        e := Entry(r.since + s.lim.failureTtl, r.prior.staleUntil, r.prior.image);
      }
    }
  }

  lemma RecoverLru(s: State, t: nat)
    requires CacheInv(s) && LruInv(s) && Enabled(s, RefreshRecovers(t))
    ensures LruInv(Recover(s, t, s.refreshes[t].key))
  {
    var k := s.refreshes[t].key;
    if k in s.store.cache.vals {
      var prior := s.store.cache.vals[k];
      WriteLru(s.store.cache, k, Entry(s.now + s.lim.failureTtl, prior.staleUntil, prior.image),
               s.lim.maxEntries, s.touched, s.moves);
    }
  }

  lemma LruStep(s: State, st: Step)
    requires Inv(s) && LruInv(s)
    ensures LruInv(Next(s, st))
  {
    if Enabled(s, st) {
      match st
      case Get(_, k) => LookLru(s, k);
      case GetLocked(id) => LookLru(s, s.requests[id].key);
      case GetCaptured(_, _) => CaptureLru(s, st);
      case RefreshCaptured(_, _) => CaptureLru(s, st);
      case RefreshRecovers(t) => RecoverLru(s, t);
      case Discard(k) => WithoutByTouch(s.store.cache.order, {k}, s.touched, s.moves);
      case _ =>
    }
  }

  lemma {:induction false} LruRun(s: State, run: seq<Step>)
    requires Inv(s) && LruInv(s)
    ensures Inv(After(s, run)) && LruInv(After(s, run))
    decreases |run|
  {
    if run != [] {
      LruStep(s, run[0]);
      StepInv(s, run[0]);
      LruRun(Next(s, run[0]), run[1..]);
    }
  }

  /** A capture that ends stores something new, or puts back what its refresh started from. */
  lemma CaptureStores(s: State, st: Step, k: Key)
    requires FlightInv(s) && Enabled(s, st) && (st.GetCaptured? || st.RefreshCaptured?)
    requires k == if st.GetCaptured? then s.requests[st.id].key else s.refreshes[st.task].key
    ensures var m := Next(s, st);
      && m.touched == s.touched[k := s.moves] && m.moves == s.moves + 1
      && ((exists image :: m.store.cache == Remember(s.store.cache, s.lim, k, image, s.now)) ||
          (forall j | j in s.store.cache.vals :: j in m.store.cache.vals))
  {
    var m := Next(s, st);
    var image := if st.out.Captured? then st.out.image else None;
    if st.GetCaptured? || (st.out.Captured? && st.out.image.Some?) {
      assert m.store.cache == Remember(s.store.cache, s.lim, k, image, s.now);
    }
  }

  /**
   * Eviction takes the least recently touched keys: whatever the end of a capture pushes out,
   * delivered, empty or failed, was touched before everything that stays, and the key just
   * written stays.
   */
  lemma EvictsLeastRecent(s: State, run: seq<Step>, e: State, st: Step, k: Key, gone: Key, kept: Key)
    requires Init(s) && e == After(s, run)
    requires Enabled(e, st) && (st.GetCaptured? || st.RefreshCaptured?)
    requires k == if st.GetCaptured? then e.requests[st.id].key else e.refreshes[st.task].key
    requires gone in e.store.cache.vals && gone !in Next(e, st).store.cache.vals
    requires kept in Next(e, st).store.cache.vals
    ensures var m := Next(e, st);
      && k in m.store.cache.vals
      && gone in m.touched && kept in m.touched && m.touched[gone] < m.touched[kept]
  {
    InitInv(s);
    LruRun(s, run);
    EvictionOrder(e, st, k, gone, kept);
  }

  lemma EvictionOrder(e: State, st: Step, k: Key, gone: Key, kept: Key)
    requires CacheInv(e) && FlightInv(e) && LruInv(e) && Enabled(e, st) && (st.GetCaptured? || st.RefreshCaptured?)
    requires k == if st.GetCaptured? then e.requests[st.id].key else e.refreshes[st.task].key
    requires gone in e.store.cache.vals && gone !in Next(e, st).store.cache.vals
    requires kept in Next(e, st).store.cache.vals
    ensures var m := Next(e, st);
      && k in m.store.cache.vals
      && gone in m.touched && kept in m.touched && m.touched[gone] < m.touched[kept]
  {
    CaptureStores(e, st, k);
    var image :| Next(e, st).store.cache == Remember(e.store.cache, e.lim, k, image, e.now);
    RememberEvicts(e.store.cache, e.lim, k, image, e.now, e.touched, e.moves, gone, kept);
  }

  lemma RememberEvicts(c: Cache, lim: Limits, k: Key, image: Image, now: real,
                       touched: map<Key, nat>, moves: nat, gone: Key, kept: Key)
    requires Wf(c) && lim.maxEntries >= 1 && ByTouch(c.order, touched, moves)
    requires gone in c.vals && gone !in Remember(c, lim, k, image, now).vals
    requires kept in Remember(c, lim, k, image, now).vals
    ensures k in Remember(c, lim, k, image, now).vals
    ensures var t := touched[k := moves]; gone in t && kept in t && t[gone] < t[kept]
  {
    RememberBounded(c, lim, k, image, now);
    var entry := NewEntry(lim, image, now);
    PutAtEnd(c, k, entry);
    MovedByTouch(c.order, k, touched, moves);
    EvictedBefore(SetLast(c, k, entry), lim.maxEntries, gone, kept, touched[k := moves], moves + 1);
  }

  lemma EvictedBefore(m: Cache, max: nat, gone: Key, kept: Key, touched: map<Key, nat>, moves: nat)
    requires Wf(m) && ByTouch(m.order, touched, moves)
    requires gone in m.vals && gone !in Evict(m, max).vals && kept in Evict(m, max).vals
    ensures gone in touched && kept in touched && touched[gone] < touched[kept]
  {
    var n := Surplus(m, max);
    EvictWf(m, max);
    assert gone in m.order[..n] && kept in m.order[n..];
    var i :| 0 <= i < n && m.order[i] == gone;
    var j :| n <= j < |m.order| && m.order[j] == kept;
  }
}
