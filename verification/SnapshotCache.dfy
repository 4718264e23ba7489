/** custom_components/eufy_nvr/snapshot.py, class SnapshotCache: one method per await-free segment. */
module SnapshotCache {
  import opened Wrappers
  import opened SnapshotStore

  /** The mutable state of the cache object and of the refresh tasks it owns. */
  datatype Store = Store(
    cache: Cache,
    registered: map<Key, nat>,     // `_refresh_tasks`
    cancelled: set<nat>,           // tasks on which `cancel()` was called
    next: nat                      // number of the next task created
  )

  /** What `_cached` answers, and the refresh it may have started. */
  datatype Lookup = Lookup(hit: bool, image: Image, after: Store, started: Option<nat>)

  function StartRefresh(st: Store, k: Key): (r: (Store, Option<nat>)) {
    if k in st.registered then (st, None)
    else (st.(registered := st.registered[k := st.next], next := st.next + 1), Some(st.next))
  }

  function Cached(st: Store, k: Key, now: real): Lookup {
    var c := Purge(st.cache, now);
    var p := st.(cache := c);
    if k !in c.vals then Lookup(false, None, p, None)
    else
      var e := c.vals[k];
      var moved := p.(cache := MoveToEnd(c, k));
      if e.freshUntil > now then Lookup(true, e.image, moved, None)
      else if Usable(e.image) && e.staleUntil > now then
        var (s, started) := StartRefresh(moved, k);
        Lookup(true, e.image, s, started)
      else Lookup(false, None, p, None)
  }

  /** `_async_refresh` under the lock: the entry is there, has not expired, and is not fresh. */
  predicate Needed(c: Cache, k: Key, now: real) {
    k in c.vals && c.vals[k].freshUntil <= now < c.vals[k].staleUntil
  }

  /** A lookup would answer with an image that is no longer fresh. */
  predicate ServesStale(st: Store, k: Key, now: real) {
    var r := Cached(st, k, now);
    r.hit && Usable(r.image) && k in st.cache.vals && st.cache.vals[k].freshUntil <= now
  }

  /** Without an image an entry is fresh for as long as it lives. */
  ghost predicate EmptyStaysFresh(c: Cache) {
    forall k | k in c.vals && !Usable(c.vals[k].image) :: c.vals[k].freshUntil >= c.vals[k].staleUntil
  }

  lemma NeededServesStale(st: Store, k: Key, now: real)
    requires EmptyStaysFresh(st.cache)
    ensures Needed(st.cache, k, now) <==> ServesStale(st, k, now)
    ensures Needed(st.cache, k, now) ==> Usable(st.cache.vals[k].image) && Cached(st, k, now).image == st.cache.vals[k].image
  {
  }

  function Discarded(st: Store, k: Key): Store {
    st.(cache := Remove(st.cache, {k}),
        registered := st.registered - {k},
        cancelled := st.cancelled + if k in st.registered then {st.registered[k]} else {})
  }

  function Cleared(st: Store): Store {
    st.(cache := Cache([], map[]), registered := map[], cancelled := st.cancelled + st.registered.Values)
  }

  /** `_refresh_done`: the callback forgets its own task only. */
  function Finished(st: Store, k: Key, task: nat): Store {
    if k in st.registered && st.registered[k] == task then st.(registered := st.registered - {k}) else st
  }

  /** What `capture()` came back with; cancellation is not an outcome of this kind. */
  datatype Outcome = Captured(image: Image) | Raised

  /** A foreground capture returned or raised, with the entry found when it began. */
  function ForegroundDone(st: Store, lim: Limits, k: Key, prior: Option<Entry>, since: real, out: Outcome, now: real): Store {
    if (out.Raised? || out.image.None?) && prior.Some? && Usable(prior.value.image)
    then st.(cache := CoolDown(st.cache, lim, k, prior.value, since))
    else st.(cache := Remember(st.cache, lim, k, if out.Captured? then out.image else None, now))
  }

  function RefreshDoneWith(st: Store, lim: Limits, k: Key, prior: Entry, since: real, out: Outcome, now: real): Store {
    if out.Raised? || out.image.None?
    then st.(cache := CoolDown(st.cache, lim, k, prior, since))
    else st.(cache := Remember(st.cache, lim, k, out.image, now))
  }

  /** The handler of a timed-out refresh, once it has the lock again. */
  function Recovered(st: Store, lim: Limits, k: Key, now: real): Store {
    if k in st.cache.vals && st.cache.vals[k].staleUntil > now
    then st.(cache := CoolDown(st.cache, lim, k, st.cache.vals[k], now))
    else st
  }

  lemma ValuesListed(m: map<Key, nat>)
    ensures m.Values == set k | k in m :: m[k]
  {
    forall v | v in m.Values ensures v in set k | k in m :: m[k] {
      var k :| k in m && m[k] == v;
    }
  }

  class SnapshotCache {
    const lim: Limits
    var order: seq<Key>
    var vals: map<Key, Entry>
    var refreshTasks: map<Key, nat>
    var cancelled: set<nat>
    var nextTask: nat

    function Contents(): Store
      reads this
    {
      Store(Cache(order, vals), refreshTasks, cancelled, nextTask)
    }

    ghost predicate Valid()
      reads this
    {
      ValidLimits(lim) && Wf(Contents().cache)
    }

    constructor (lim: Limits)
      requires ValidLimits(lim)
      ensures Valid() && this.lim == lim && Contents() == Store(Cache([], map[]), map[], {}, 0)
    {
      this.lim := lim;
      order, vals, refreshTasks, cancelled, nextTask := [], map[], map[], {}, 0;
    }

    /** `clear`. */
    method Clear()
      requires Valid()
      modifies this
      ensures Valid() && Contents() == Cleared(old(Contents()))
    {
      order, vals := [], map[];
      ghost var tasks := refreshTasks;
      var keys: set<Key> := refreshTasks.Keys;
      while keys != {}
        invariant keys <= tasks.Keys && refreshTasks == tasks
        invariant order == [] && vals == map[] && nextTask == old(nextTask)
        invariant cancelled == old(cancelled) + set k | k in tasks && k !in keys :: tasks[k]
        decreases |keys|
      {
        var k :| k in keys;
        cancelled := cancelled + {refreshTasks[k]};
        keys := keys - {k};
      }
      ValuesListed(tasks);
      refreshTasks := map[];
    }

    /** `discard`. */
    method Discard(k: Key)
      requires Valid()
      modifies this
      ensures Valid() && Contents() == Discarded(old(Contents()), k)
    {
      RemoveWf(Contents().cache, {k});
      order, vals := Without(order, {k}), vals - {k};
      if k in refreshTasks {
        cancelled := cancelled + {refreshTasks[k]};
        refreshTasks := refreshTasks - {k};
      }
    }

    /** The comprehension at the head of `_cached`. */
    method CollectExpired(now: real) returns (expired: seq<Key>)
      requires Valid()
      ensures Members(expired) == Expired(Contents().cache, now)
    {
      expired := [];
      for i := 0 to |order|
        invariant forall k :: k in expired <==> k in order[..i] && vals[k].staleUntil <= now
      {
        assert order[i] in order && order[..i + 1] == order[..i] + [order[i]];
        if vals[order[i]].staleUntil <= now {
          expired := expired + [order[i]];
        }
      }
      assert order[..|order|] == order;
    }

    /** Deletes keys one by one. */
    method DeleteAll(keys: seq<Key>)
      requires Valid()
      modifies this`order, this`vals
      ensures Valid() && Contents() == old(Contents()).(cache := Remove(old(Contents()).cache, Members(keys)))
    {
      ghost var before := Contents().cache;
      RemoveNothing(before);
      for i := 0 to |keys|
        invariant Cache(order, vals) == Remove(before, Members(keys[..i]))
      {
        RemoveOneMore(before, keys, i);
        order, vals := Without(order, {keys[i]}), vals - {keys[i]};
      }
      assert keys[..|keys|] == keys;
      RemoveWf(before, Members(keys));
    }

    /** The purge at the head of `_cached`: collect the expired keys, then delete them. */
    method PurgeExpired(now: real)
      requires Valid()
      modifies this`order, this`vals
      ensures Valid() && Contents() == old(Contents()).(cache := Purge(old(Contents()).cache, now))
    {
      var expired := CollectExpired(now);
      DeleteAll(expired);
    }

    /** `_cached`. */
    method CachedImage(k: Key, now: real) returns (hit: bool, image: Image, started: Option<nat>)
      requires Valid()
      modifies this
      ensures Valid() && Lookup(hit, image, Contents(), started) == Cached(old(Contents()), k, now)
    {
      PurgeExpired(now);
      if k !in vals {
        return false, None, None;
      }
      var e := vals[k];
      if e.freshUntil > now {
        Touch(k);
        return true, e.image, None;
      }
      if Usable(e.image) && e.staleUntil > now {
        Touch(k);
        started := Refresh(k);
        return true, e.image, started;
      }
      return false, None, None;
    }

    method Touch(k: Key)
      requires Valid() && k in vals
      modifies this`order
      ensures Valid() && Contents() == old(Contents()).(cache := MoveToEnd(old(Contents()).cache, k))
    {
      TouchWf(Contents().cache, k);
      order := Without(order, {k}) + [k];
    }

    /** `_start_refresh`: at most one task per key is registered. */
    method Refresh(k: Key) returns (started: Option<nat>)
      modifies this`refreshTasks, this`nextTask
      ensures (Contents(), started) == StartRefresh(old(Contents()), k)
    {
      if k in refreshTasks {
        return None;
      }
      started := Some(nextTask);
      refreshTasks := refreshTasks[k := nextTask];
      nextTask := nextTask + 1;
    }

    /** `_refresh_done`. */
    method RefreshDone(k: Key, task: nat)
      modifies this`refreshTasks
      ensures Contents() == Finished(old(Contents()), k, task)
    {
      if k in refreshTasks && refreshTasks[k] == task {
        refreshTasks := refreshTasks - {k};
      }
    }

    /** `popitem(last=False)` on the ordered dictionary. */
    method PopItem()
      requires order != []
      modifies this`order, this`vals
      ensures Cache(order, vals) == Popped(Cache(old(order), old(vals)))
    {
      vals := vals - {order[0]};
      order := order[1..];
    }

    /** The loop at the end of `_remember`. */
    method EvictSurplus()
      requires Valid()
      modifies this`order, this`vals
      ensures Valid() && Contents() == old(Contents()).(cache := Evict(old(Contents()).cache, lim.maxEntries))
    {
      ghost var full := Contents().cache;
      ghost var n := 0;
      PopNothing(full);
      while |order| > lim.maxEntries
        invariant 0 <= n <= Surplus(full, lim.maxEntries) && |order| == |full.order| - n
        invariant Cache(order, vals) == PopFront(full, n)
        decreases |order|
      {
        PopOneMore(full, n);
        PopItem();
        n := n + 1;
      }
      assert n == Surplus(full, lim.maxEntries);
      EvictWf(full, lim.maxEntries);
    }

    /** `_remember`. */
    method RememberImage(k: Key, image: Image, now: real)
      requires Valid()
      modifies this`order, this`vals
      ensures Valid() && Contents() == old(Contents()).(cache := Remember(old(Contents()).cache, lim, k, image, now))
    {
      SetAndMove(k, NewEntry(lim, image, now));
      EvictSurplus();
    }

    /** `self._cache[key] = e; self._cache.move_to_end(key)`. */
    method SetAndMove(k: Key, e: Entry)
      requires Valid()
      modifies this`order, this`vals
      ensures Valid() && Contents() == old(Contents()).(cache := SetLast(old(Contents()).cache, k, e))
    {
      PutAtEnd(Contents().cache, k, e);
      if k !in vals {
        order := order + [k];
      }
      vals := vals[k := e];
      order := Without(order, {k}) + [k];
    }

    /** The write shared by the failure paths. */
    method CoolEntry(k: Key, prior: Entry, since: real)
      requires Valid()
      modifies this`order, this`vals
      ensures Valid() && Contents() == old(Contents()).(cache := CoolDown(old(Contents()).cache, lim, k, prior, since))
    {
      SetAndMove(k, Entry(since + lim.failureTtl, prior.staleUntil, prior.image));
    }

    /** `async_get` after its capture returned or raised, still holding the lock. */
    method FinishGet(k: Key, prior: Option<Entry>, since: real, out: Outcome, now: real) returns (image: Image, failed: bool)
      requires Valid()
      modifies this`order, this`vals
      ensures Valid() && Contents() == ForegroundDone(old(Contents()), lim, k, prior, since, out, now)
      ensures var kept := (out.Raised? || out.image.None?) && prior.Some? && Usable(prior.value.image);
        (failed <==> out.Raised? && !kept) &&
        image == (if kept then prior.value.image else if out.Captured? then out.image else None)
    {
      match out {
        case Raised =>
          if prior.Some? && Usable(prior.value.image) {
            CoolEntry(k, prior.value, since);
            return prior.value.image, false;
          }
          RememberImage(k, None, now);
          return None, true;
        case Captured(got) =>
          if got.None? && prior.Some? && Usable(prior.value.image) {
            CoolEntry(k, prior.value, since);
            return prior.value.image, false;
          }
          RememberImage(k, got, now);
          return got, false;
      }
    }

    /** `_async_refresh` on getting the lock: whether it goes on to capture, and from which entry. */
    method RefreshNeeded(k: Key, now: real) returns (prior: Option<Entry>)
      ensures prior.Some? <==> Needed(Contents().cache, k, now)
      ensures prior.Some? ==> k in vals && prior.value == vals[k]
      ensures EmptyStaysFresh(Contents().cache) ==>
        (prior.Some? <==> ServesStale(Contents(), k, now)) && (prior.Some? ==> Usable(prior.value.image))
    {
      if EmptyStaysFresh(Contents().cache) { NeededServesStale(Contents(), k, now); }
      if k !in vals || vals[k].staleUntil <= now {
        return None;
      }
      if vals[k].freshUntil > now {
        return None;
      }
      return Some(vals[k]);
    }

    /** `_async_refresh` after its capture returned or raised. */
    method FinishRefresh(k: Key, prior: Entry, since: real, out: Outcome, now: real)
      requires Valid()
      modifies this`order, this`vals
      ensures Valid() && Contents() == RefreshDoneWith(old(Contents()), lim, k, prior, since, out, now)
    {
      if out.Raised? || out.image.None? {
        CoolEntry(k, prior, since);
        return;
      }
      RememberImage(k, out.image, now);
    }

    /** The `except TimeoutError` branch of `_async_refresh`. */
    method RecoverRefresh(k: Key, now: real)
      requires Valid()
      modifies this`order, this`vals
      ensures Valid() && Contents() == Recovered(old(Contents()), lim, k, now)
    {
      if k in vals && vals[k].staleUntil > now {
        CoolEntry(k, vals[k], now);
      }
    }
  }
}
