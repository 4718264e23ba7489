/** What every step of the snapshot cache keeps. */
module SnapshotInvariant {
  import opened Wrappers
  import opened SnapshotStore
  import opened SnapshotCache
  import opened SnapshotProtocol

  ghost predicate CacheInv(s: State) {
    ValidLimits(s.lim) && Wf(s.store.cache) && |s.store.cache.order| <= s.lim.maxEntries
  }

  /** The lock holder is exactly the task suspended inside `capture()`. */
  ghost predicate LockInv(s: State) {
    && (forall i | i in s.requests :: s.requests[i].Capturing? <==> s.lock == ByRequest(i))
    && (forall t | t in s.refreshes :: s.refreshes[t].Refreshing? <==> s.lock == ByRefresh(t))
    && (s.lock.ByRequest? ==> s.lock.id in s.requests)
    && (s.lock.ByRefresh? ==> s.lock.task in s.refreshes)
  }

  /** Each live uncancelled refresh is the one registered for its key. */
  ghost predicate TaskInv(s: State) {
    && (forall t | t in s.refreshes || t in s.store.cancelled :: t < s.store.next)
    && (forall k | k in s.store.registered ::
          var t := s.store.registered[k];
          t in s.refreshes && s.refreshes[t].key == k && t !in s.store.cancelled)
    && (forall t | t in s.refreshes && Live(s.refreshes[t]) && t !in s.store.cancelled ::
          var k := s.refreshes[t].key;
          k in s.store.registered && s.store.registered[k] == t)
  }

  /** A usable image is a stored capture of this key; an unusable one never outlives its cooldown. */
  ghost predicate EntryOk(lim: Limits, stored: set<Stored>, now: real, k: Key, e: Entry) {
    if Usable(e.image) then Stored(k, e.image, e.staleUntil - lim.staleTtl) in stored
    else e.freshUntil >= e.staleUntil && e.staleUntil <= now + lim.failureTtl
  }

  ghost predicate EntryInv(s: State) {
    && (forall k | k in s.store.cache.vals :: EntryOk(s.lim, s.stored, s.now, k, s.store.cache.vals[k]))
    && (forall x | x in s.stored :: x.at <= s.now && Usable(x.image))
  }

  /** A refresh in flight started from a stale usable image, a foreground capture from nothing. */
  ghost predicate FlightInv(s: State) {
    && (forall t | t in s.refreshes && s.refreshes[t].Refreshing? ::
          var r := s.refreshes[t];
          Usable(r.prior.image) && EntryOk(s.lim, s.stored, s.now, r.key, r.prior) &&
          r.prior.freshUntil <= r.since <= s.now)
    && (forall i | i in s.requests && s.requests[i].Capturing? ::
          s.requests[i].prior == None && s.requests[i].since <= s.now)
  }

  /** A refresh in flight can put its entry back without exceeding the bound. */
  ghost predicate RoomInv(s: State) {
    s.lock.ByRefresh? && s.lock.task in s.refreshes ==>
      s.refreshes[s.lock.task].key in s.store.cache.vals || |s.store.cache.order| < s.lim.maxEntries
  }

  ghost predicate Inv(s: State) {
    CacheInv(s) && LockInv(s) && TaskInv(s) && EntryInv(s) && FlightInv(s) && RoomInv(s)
  }

  lemma InitInv(s: State)
    requires Init(s)
    ensures Inv(s)
  {
  }

  // ---------------------------------------------------------------- the cache alone

  /** Nothing was added or changed, and at least what is missing is shorter. */
  ghost predicate Shrunk(a: Cache, b: Cache) {
    && Wf(b)
    && (forall k | k in b.vals :: k in a.vals && b.vals[k] == a.vals[k])
    && |b.order| <= |a.order|
    && (forall k | k in a.vals && k !in b.vals :: |b.order| < |a.order|)
  }

  lemma {:induction false} WithoutSome(order: seq<Key>, gone: set<Key>, k: Key)
    requires k in order && k in gone
    ensures |Without(order, gone)| < |order|
  {
    if order[0] !in gone {
      WithoutSome(order[1..], gone, k);
    }
  }

  lemma RemoveShrinks(c: Cache, gone: set<Key>)
    requires Wf(c)
    ensures Shrunk(c, Remove(c, gone))
  {
    RemoveWf(c, gone);
    forall k | k in c.vals && k in gone ensures |Without(c.order, gone)| < |c.order| {
      WithoutSome(c.order, gone, k);
    }
  }

  lemma CachedShrinks(st: Store, k: Key, now: real)
    requires Wf(st.cache)
    ensures Shrunk(st.cache, Cached(st, k, now).after.cache)
  {
    RemoveShrinks(st.cache, Expired(st.cache, now));
    var c := Purge(st.cache, now);
    if k in c.vals { TouchWf(c, k); }
  }

  // ---------------------------------------------------------------- looking up

  lemma LookCache(s: State, k: Key)
    requires CacheInv(s) && EntryInv(s) && FlightInv(s) && RoomInv(s)
    ensures var m := Look(s, k); CacheInv(m) && EntryInv(m)
    ensures Shrunk(s.store.cache, Look(s, k).store.cache)
  {
    CachedShrinks(s.store, k, s.now);
  }

  lemma LookTasks(s: State, k: Key)
    requires TaskInv(s)
    ensures TaskInv(Look(s, k))
  {
  }

  lemma LookLock(s: State, k: Key)
    requires Inv(s)
    ensures var m := Look(s, k); LockInv(m) && FlightInv(m) && RoomInv(m)
  {
    LookCache(s, k);
    LookRefreshes(s, k);
    LookFlight(s, Look(s, k));
  }

  lemma LookRefreshes(s: State, k: Key)
    requires TaskInv(s)
    ensures var m := Look(s, k);
      && m.lock == s.lock && m.requests == s.requests && m.lim == s.lim && m.stored == s.stored && m.now == s.now
      && (forall t | t in m.refreshes :: t in s.refreshes || m.refreshes[t].Queued?)
      && (forall t | t in s.refreshes :: t in m.refreshes && m.refreshes[t] == s.refreshes[t])
  {
  }

  lemma LookFlight(s: State, m: State)
    requires CacheInv(s) && LockInv(s) && FlightInv(s) && RoomInv(s) && Shrunk(s.store.cache, m.store.cache)
    requires m.lock == s.lock && m.requests == s.requests && m.lim == s.lim && m.stored == s.stored && m.now == s.now
    requires forall t | t in m.refreshes :: t in s.refreshes || m.refreshes[t].Queued?
    requires forall t | t in s.refreshes :: t in m.refreshes && m.refreshes[t] == s.refreshes[t]
    requires forall t | t in m.refreshes && t !in s.refreshes :: m.lock != ByRefresh(t)
    ensures LockInv(m) && FlightInv(m) && RoomInv(m)
  {
  }

  lemma LookInv(s: State, k: Key)
    requires Inv(s)
    ensures Inv(Look(s, k))
  {
    LookCache(s, k);
    LookTasks(s, k);
    LookLock(s, k);
  }

  /** A miss leaves no entry for the key at all. */
  lemma MissMeansAbsent(s: State, k: Key)
    requires CacheInv(s) && EntryInv(s) && !Hit(s, k)
    ensures k !in Look(s, k).store.cache.vals
  {
  }

  // ---------------------------------------------------------------- storing

  lemma StoreFrame(s: State, k: Key, e: Entry, c: Cache, stored: set<Stored>)
    requires ValidLimits(s.lim) && EntryInv(s) && Wf(c) && |c.order| <= s.lim.maxEntries
    requires forall j | j in c.vals ::
      if j == k then c.vals[j] == e else j in s.store.cache.vals && c.vals[j] == s.store.cache.vals[j]
    requires s.stored <= stored && EntryOk(s.lim, stored, s.now, k, e)
    requires forall x | x in stored && x !in s.stored :: x.at <= s.now && Usable(x.image)
    ensures var m := s.(store := s.store.(cache := c), stored := stored); CacheInv(m) && EntryInv(m)
  {
    forall j | j in c.vals ensures EntryOk(s.lim, stored, s.now, j, c.vals[j]) {
      if j != k { assert EntryOk(s.lim, s.stored, s.now, j, s.store.cache.vals[j]); }
    }
  }

  lemma NewEntryOk(lim: Limits, stored: set<Stored>, now: real, k: Key, image: Image)
    requires Usable(image) ==> Stored(k, image, now) in stored
    ensures EntryOk(lim, stored, now, k, NewEntry(lim, image, now))
  {
  }

  lemma StoreEntries(s: State, k: Key, image: Image)
    requires CacheInv(s) && EntryInv(s)
    ensures var c := Remember(s.store.cache, s.lim, k, image, s.now);
      var m := s.(store := s.store.(cache := c), stored := Record(s, k, Captured(image)));
      CacheInv(m) && EntryInv(m)
  {
    RememberBounded(s.store.cache, s.lim, k, image, s.now);
    NewEntryOk(s.lim, Record(s, k, Captured(image)), s.now, k, image);
    StoreFrame(s, k, NewEntry(s.lim, image, s.now), Remember(s.store.cache, s.lim, k, image, s.now), Record(s, k, Captured(image)));
  }

  lemma CooledOk(lim: Limits, stored: set<Stored>, now: real, k: Key, prior: Entry, e: Entry)
    requires EntryOk(lim, stored, now, k, prior)
    requires e.staleUntil == prior.staleUntil && e.image == prior.image
    requires Usable(prior.image) || e.freshUntil >= now + lim.failureTtl
    ensures EntryOk(lim, stored, now, k, e)
  {
  }

  lemma ReplaceEntries(s: State, k: Key, e: Entry, c: Cache)
    requires CacheInv(s) && EntryInv(s) && EntryOk(s.lim, s.stored, s.now, k, e)
    requires Wf(c) && c.vals == s.store.cache.vals[k := e] && |c.order| <= s.lim.maxEntries
    ensures var m := s.(store := s.store.(cache := c)); CacheInv(m) && EntryInv(m)
  {
  }

  lemma CoolEntries(s: State, k: Key, prior: Entry, since: real)
    requires CacheInv(s) && EntryInv(s) && EntryOk(s.lim, s.stored, s.now, k, prior)
    requires Usable(prior.image) || since >= s.now
    requires k in s.store.cache.vals || |s.store.cache.order| < s.lim.maxEntries
    ensures var m := s.(store := s.store.(cache := CoolDown(s.store.cache, s.lim, k, prior, since)));
      CacheInv(m) && EntryInv(m)
  {
    var e := Entry(since + s.lim.failureTtl, prior.staleUntil, prior.image);
    CooledOk(s.lim, s.stored, s.now, k, prior, e);
    PutAtEnd(s.store.cache, k, e);
    ReplaceEntries(s, k, e, CoolDown(s.store.cache, s.lim, k, prior, since));
  }

  // ---------------------------------------------------------------- steps

  lemma GetInv(s: State, id: nat, k: Key)
    requires Inv(s) && id !in s.requests
    ensures Inv(Next(s, Get(id, k)))
  {
    LookInv(s, k);
  }

  lemma GetLockedInv(s: State, id: nat)
    requires Inv(s) && Enabled(s, GetLocked(id))
    ensures Inv(TakeLock(s, id, s.requests[id].key))
  {
    var k := s.requests[id].key;
    LookInv(s, k);
    if !Hit(s, k) { MissMeansAbsent(s, k); }
  }

  lemma GetCapturedInv(s: State, id: nat, out: Outcome)
    requires Inv(s) && Enabled(s, GetCaptured(id, out))
    ensures Inv(EndGet(s, id, s.requests[id], out))
  {
    var r := s.requests[id];
    var image := if out.Captured? then out.image else None;
    StoreEntries(s, r.key, image);
    var m := EndGet(s, id, r, out);
    assert m.stored == Record(s, r.key, Captured(image));
    StillInFlight(s, m);
  }

  /** A task that has ended stays registered until its callback. */
  lemma EndedTasks(s: State, m: State, t: nat)
    requires TaskInv(s) && t in s.refreshes && m.refreshes == s.refreshes[t := Ended(s.refreshes[t].key)]
    requires m.store.registered == s.store.registered && m.store.cancelled == s.store.cancelled && m.store.next == s.store.next
    ensures TaskInv(m)
  {
  }

  lemma RefreshCapturedInv(s: State, t: nat, out: Outcome)
    requires Inv(s) && Enabled(s, RefreshCaptured(t, out))
    ensures Inv(EndRefresh(s, t, s.refreshes[t], out))
  {
    var r := s.refreshes[t];
    if out.Raised? || out.image.None? {
      CoolEntries(s, r.key, r.prior, r.since);
    } else {
      StoreEntries(s, r.key, out.image);
    }
    EndedTasks(s, EndRefresh(s, t, r, out), t);
    StillInFlight(s, EndRefresh(s, t, r, out));
  }

  /** After the holder has left, nobody is capturing. */
  lemma StillInFlight(s: State, m: State)
    requires LockInv(s) && m.lock == Nobody
    requires forall i | i in m.requests :: i in s.requests && m.requests[i] == s.requests[i] && s.lock != ByRequest(i)
    requires forall t | t in m.refreshes ::
      && t in s.refreshes
      && (m.refreshes[t].Ended? || (m.refreshes[t] == s.refreshes[t] && s.lock != ByRefresh(t)))
    ensures LockInv(m) && FlightInv(m) && RoomInv(m)
  {
  }

  lemma RecoverInv(s: State, t: nat)
    requires Inv(s) && Enabled(s, RefreshRecovers(t))
    ensures Inv(Recover(s, t, s.refreshes[t].key))
  {
    var k := s.refreshes[t].key;
    if k in s.store.cache.vals && s.store.cache.vals[k].staleUntil > s.now {
      CoolEntries(s, k, s.store.cache.vals[k], s.now);
    }
    EndedTasks(s, Recover(s, t, k), t);
    StillInFlight(s, Recover(s, t, k));
  }

  lemma RefreshLockedInv(s: State, t: nat)
    requires Inv(s) && Enabled(s, RefreshLocked(t))
    ensures Inv(TakeRefreshLock(s, t, s.refreshes[t].key))
  {
    var k := s.refreshes[t].key;
    if Needed(s.store.cache, k, s.now) {
      assert EntryOk(s.lim, s.stored, s.now, k, s.store.cache.vals[k]);
    }
  }

  lemma DiscardInv(s: State, k: Key)
    requires Inv(s)
    ensures Inv(Next(s, Discard(k)))
  {
    RemoveShrinks(s.store.cache, {k});
  }

  lemma ClearInv(s: State)
    requires Inv(s)
    ensures Inv(Next(s, Clear))
  {
    var m := Next(s, Clear);
    forall t | t in m.store.cancelled ensures t < m.store.next {
      if t !in s.store.cancelled {
        var k :| k in s.store.registered && s.store.registered[k] == t;
      }
    }
  }

  lemma TimeoutInv(s: State, t: nat)
    requires Inv(s) && Enabled(s, RefreshTimeout(t))
    ensures Inv(Next(s, RefreshTimeout(t)))
  {
  }

  lemma GetCancelledInv(s: State, id: nat)
    requires Inv(s) && Enabled(s, GetCancelled(id))
    ensures Inv(Next(s, GetCancelled(id)))
  {
  }

  lemma RefreshCancelledInv(s: State, t: nat)
    requires Inv(s) && Enabled(s, RefreshCancelled(t))
    ensures Inv(Next(s, RefreshCancelled(t)))
  {
  }

  lemma CallbackInv(s: State, t: nat)
    requires Inv(s) && Enabled(s, RefreshCallback(t))
    ensures Inv(Next(s, RefreshCallback(t)))
  {
  }

  lemma TickInv(s: State, d: real)
    requires Inv(s) && d >= 0.0
    ensures Inv(Next(s, Tick(d)))
  {
  }

  lemma StepInv(s: State, st: Step)
    requires Inv(s)
    ensures Inv(Next(s, st))
  {
    if Enabled(s, st) {
      match st
      case Get(id, k) => GetInv(s, id, k);
      case GetLocked(id) => GetLockedInv(s, id);
      case GetCaptured(id, out) => GetCapturedInv(s, id, out);
      case RefreshLocked(t) => RefreshLockedInv(s, t);
      case RefreshCaptured(t, out) => RefreshCapturedInv(s, t, out);
      case RefreshTimeout(t) => TimeoutInv(s, t);
      case RefreshRecovers(t) => RecoverInv(s, t);
      case RefreshCallback(t) => CallbackInv(s, t);
      case Discard(k) => DiscardInv(s, k);
      case Clear => ClearInv(s);
      case Tick(d) => TickInv(s, d);
      case GetCancelled(id) => GetCancelledInv(s, id);
      case RefreshCancelled(t) => RefreshCancelledInv(s, t);
    }
  }

  lemma {:induction false} RunInv(s: State, run: seq<Step>)
    requires Inv(s)
    ensures Inv(After(s, run))
    decreases |run|
  {
    if run != [] {
      StepInv(s, run[0]);
      RunInv(Next(s, run[0]), run[1..]);
    }
  }
}
